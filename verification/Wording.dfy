/** The wording compiler (crates/catalog/build.rs): one template with slots `{0}`..`{n-1}`
    becomes a Rust `format!` string and a TypeScript template literal, and both have to mean
    plain substitution of the arguments. */
module Wording {
  import Quoting
  import opened Results
  import opened Text

  // `slots` looks for {0}..{8} and for nothing else.
  const SLOT_LIMIT := 9

  type Arity = n: nat | n <= SLOT_LIMIT

  function Digit(i: nat): char
    requires i < 10
  {
    '0' + i as char
  }

  predicate Contains(s: string, p: string) {
    StartsWith(s, p) || (s != "" && Contains(s[1..], p))
  }

  /******* What a template means *******/

  function SlotText(i: nat): string
    requires i < SLOT_LIMIT
  {
    "{" + [Digit(i)] + "}"
  }

  function Slots(v: string): set<nat> {
    set i: nat | i < SLOT_LIMIT && Contains(v, SlotText(i))
  }

  /** The set `(0..n)`. */
  function Below(n: nat): (r: set<nat>)
    ensures |r| == n
    ensures forall i: nat :: i in r <==> i < n
  {
    if n == 0 then {} else Below(n - 1) + {n - 1}
  }

  function ArgCount(v: string): Arity {
    SlotsFit(v);
    |Slots(v)|
  }

  lemma SlotsFit(v: string)
    ensures |Slots(v)| <= SLOT_LIMIT
  {
    assert Below(SLOT_LIMIT) == Slots(v) + (Below(SLOT_LIMIT) - Slots(v));
  }

  /** The slot, below n, that v starts with. */
  function SlotAt(v: string, n: Arity): (slot: Option<nat>)
    ensures slot.Some? <==> exists i: nat :: i < n && StartsWith(v, SlotText(i))
    ensures slot.Some? ==> slot.value < n && StartsWith(v, SlotText(slot.value))
  {
    if |v| >= 3 && v[0] == '{' && '0' <= v[1] && v[1] as int - '0' as int < n && v[2] == '}'
    then
      var i := v[1] as int - '0' as int;
      assert v[..3] == SlotText(i);
      Some(i)
    else
      assert forall i: nat | i < n && StartsWith(v, SlotText(i)) :: v[..3][0] == '{' && v[..3][1] == Digit(i) && v[..3][2] == '}';
      None
  }

  /** Simultaneous substitution of args[i] for every `{i}`: the meaning both compilers owe. */
  function Subst(v: string, args: seq<string>): string
    requires |args| <= SLOT_LIMIT
  {
    if v == "" then ""
    else match SlotAt(v, |args|)
      case Some(i) => args[i] + Subst(v[3..], args)
      case None => [v[0]] + Subst(v[1..], args)
  }

  /******* The Rust face *******/

  /** What `format!` makes of a format string with captured arguments a0, a1, ...;
      None where rustc refuses the string. */
  function FormatEval(s: string, args: seq<string>): Option<string>
    requires |args| <= SLOT_LIMIT
  {
    if s == "" then Some("")
    else if s[0] == '{' then
      if |s| >= 2 && s[1] == '{' then Emit("{", FormatEval(s[2..], args))
      else match ArgumentAt(s, |args|)
        case Some(i) => Emit(args[i], FormatEval(s[4..], args))
        case None => None
    else if s[0] == '}' then
      if |s| >= 2 && s[1] == '}' then Emit("}", FormatEval(s[2..], args)) else None
    else Emit([s[0]], FormatEval(s[1..], args))
  }

  function Emit(head: string, rest: Option<string>): Option<string> {
    match rest
    case Some(tail) => Some(head + tail)
    case None => None
  }

  /** `{aI}`, the captured argument both faces name. */
  function ArgumentText(i: nat): string
    requires i < SLOT_LIMIT
  {
    "{a" + [Digit(i)] + "}"
  }

  function ArgumentAt(s: string, n: Arity): (arg: Option<nat>)
    ensures arg.Some? ==> |s| >= 4 && arg.value < n && s[..4] == ArgumentText(arg.value)
  {
    if |s| >= 4 && s[0] == '{' && s[1] == 'a' && '0' <= s[2] && s[2] as int - '0' as int < n && s[3] == '}'
    then Some(s[2] as int - '0' as int)
    else None
  }

  function DoubledSlot(i: nat): string
    requires i < SLOT_LIMIT
  {
    "{{" + [Digit(i)] + "}}"
  }

  function Doubled(c: char): string {
    if c == '{' || c == '}' then [c, c] else [c]
  }

  /** The format string once slots 0..k-1 have been renamed, read off the template in one pass. */
  ghost function RustText(v: string, n: Arity, k: nat): string
    requires k <= n
  {
    if v == "" then ""
    else match SlotAt(v, n)
      case Some(i) => (if i < k then ArgumentText(i) else DoubledSlot(i)) + RustText(v[3..], n, k)
      case None => Doubled(v[0]) + RustText(v[1..], n, k)
  }

  method RustFormat(v: string, n: Arity) returns (s: string)
    ensures s == RustText(v, n, n)
    ensures forall args: seq<string> | |args| == n :: FormatEval(s, args) == Some(Subst(v, args))
  {
    s := Replace(Replace(v, "{", "{{"), "}", "}}");
    BracesDoubled(v, n);
    for i := 0 to n
      invariant s == RustText(v, n, i)
    {
      RenameStep(v, n, i);
      s := Replace(s, DoubledSlot(i), ArgumentText(i));
    }
    forall args: seq<string> | |args| == n
      ensures FormatEval(s, args) == Some(Subst(v, args))
    {
      FormatMeansSubst(v, args);
    }
  }

  lemma {:induction false} BracesDoubled(v: string, n: Arity)
    ensures Replace(Replace(v, "{", "{{"), "}", "}}") == RustText(v, n, 0)
  {
    if v != "" {
      BracesDoubledHead(v);
      match SlotAt(v, n)
      case None => BracesDoubled(v[1..], n);
      case Some(i) =>
        BracesDoubledHead(v[1..]);
        BracesDoubledHead(v[2..]);
        BracesDoubled(v[3..], n);
        assert v[1..][1..] == v[2..] && v[2..][1..] == v[3..];
    }
  }

  lemma BracesDoubledHead(v: string)
    requires v != ""
    ensures Replace(Replace(v, "{", "{{"), "}", "}}")
         == Doubled(v[0]) + Replace(Replace(v[1..], "{", "{{"), "}", "}}")
  {
    assert v == [v[0]] + v[1..];
    if v[0] == '{' {
      OpenDoubled(v[1..]);
    } else {
      ReplacePasses(v[0], v[1..], "{", "{{");
      CloseDoubled(v[0], Replace(v[1..], "{", "{{"));
    }
  }

  lemma OpenDoubled(rest: string)
    ensures Replace(Replace("{" + rest, "{", "{{"), "}", "}}") == "{{" + Replace(Replace(rest, "{", "{{"), "}", "}}")
  {
    var tail := Replace(rest, "{", "{{");
    ReplaceTakes(rest, "{", "{{");
    assert "{{" + tail == ['{'] + (['{'] + tail);
    ReplacePasses('{', ['{'] + tail, "}", "}}");
    ReplacePasses('{', tail, "}", "}}");
  }

  lemma CloseDoubled(c: char, tail: string)
    requires c != '{'
    ensures Replace([c] + tail, "}", "}}") == Doubled(c) + Replace(tail, "}", "}}")
  {
    if c == '}' {
      ReplaceTakes(tail, "}", "}}");
    } else {
      ReplacePasses(c, tail, "}", "}}");
    }
  }

  /** Renaming slot k touches slot k and nothing else: no match of `{{k}}` straddles two pieces. */
  lemma {:induction false} RenameStep(v: string, n: Arity, k: nat)
    requires k < n
    ensures Replace(RustText(v, n, k), DoubledSlot(k), ArgumentText(k)) == RustText(v, n, k + 1)
  {
    if v != "" {
      var pat, rep := DoubledSlot(k), ArgumentText(k);
      match SlotAt(v, n)
      case Some(i) =>
        RenameStep(v[3..], n, k);
        var rest := RustText(v[3..], n, k);
        if i == k {
          ReplaceTakes(rest, pat, rep);
        } else if i < k {
          SkipArgument(i, rest, pat, rep);
        } else {
          SkipDoubledSlot(i, k, rest);
        }
      case None =>
        RenameStep(v[1..], n, k);
        var rest := RustText(v[1..], n, k);
        if v[0] == '{' {
          BraceRunStops(v, n, k);
        }
        SkipLiteral(v[0], rest, k);
    }
  }

  lemma SkipLiteral(c: char, rest: string, k: nat)
    requires k < SLOT_LIMIT
    requires c == '{' ==> !StartsWith(['{'] + rest, DoubledSlot(k))
    requires c == '{' ==> !StartsWith(['{'] + (['{'] + rest), DoubledSlot(k))
    ensures Replace(Doubled(c) + rest, DoubledSlot(k), ArgumentText(k))
         == Doubled(c) + Replace(rest, DoubledSlot(k), ArgumentText(k))
  {
    var pat, rep := DoubledSlot(k), ArgumentText(k);
    if c == '{' {
      ReplaceSkips(c, rest, pat, rep);
      ReplaceSkips(c, [c] + rest, pat, rep);
    } else {
      ReplacePasses(c, rest, pat, rep);
      ReplacePasses(c, [c] + rest, pat, rep);
    }
    assert |Doubled(c)| == 2 ==> Doubled(c) + rest == [c] + ([c] + rest);
  }

  lemma SkipArgument(i: nat, rest: string, pat: string, rep: string)
    requires i < SLOT_LIMIT && |pat| >= 2 && pat[0] == '{' && pat[1] != 'a'
    ensures Replace(ArgumentText(i) + rest, pat, rep) == ArgumentText(i) + Replace(rest, pat, rep)
  {
    var d := Digit(i);
    var r1 := ['}'] + rest;
    var r2 := [d] + r1;
    var r3 := ['a'] + r2;
    assert ArgumentText(i) + rest == ['{'] + r3;
    ReplaceSkips('{', r3, pat, rep);
    ReplacePasses('a', r2, pat, rep);
    ReplacePasses(d, r1, pat, rep);
    ReplacePasses('}', rest, pat, rep);
  }

  lemma SkipDoubledSlot(i: nat, k: nat, rest: string)
    requires i < SLOT_LIMIT && k < SLOT_LIMIT && i != k
    ensures Replace(DoubledSlot(i) + rest, DoubledSlot(k), ArgumentText(k))
         == DoubledSlot(i) + Replace(rest, DoubledSlot(k), ArgumentText(k))
  {
    var pat, rep, d := DoubledSlot(k), ArgumentText(k), Digit(i);
    var r1 := ['}'] + rest;
    var r2 := ['}'] + r1;
    var r3 := [d] + r2;
    var r4 := ['{'] + r3;
    assert DoubledSlot(i) + rest == ['{'] + r4;
    assert r4[1] == d != Digit(k) == pat[2];
    ReplaceSkips('{', r4, pat, rep);
    ReplaceSkips('{', r3, pat, rep);
    ReplacePasses(d, r2, pat, rep);
    ReplacePasses('}', r1, pat, rep);
    ReplacePasses('}', rest, pat, rep);
  }

  /** What the first character of the text says about the template. */
  lemma TextStart(w: string, n: Arity, k: nat)
    requires k < n && RustText(w, n, k) != ""
    ensures w != ""
    ensures var r := RustText(w, n, k);
      && (r[0] == Digit(k) ==> w[0] == Digit(k) && r[1..] == RustText(w[1..], n, k))
      && (r[0] == '}' ==> w[0] == '}')
      && (r[0] == '{' ==> |r| >= 2 && r[1] != Digit(k))
  {
  }

  /** After a literal `{` the text cannot go on as `k}}`: the template would have had a slot there. */
  lemma BraceRunStops(v: string, n: Arity, k: nat)
    requires k < n && v != "" && v[0] == '{' && SlotAt(v, n).None?
    ensures !StartsWith(['{'] + RustText(v[1..], n, k), DoubledSlot(k))
    ensures !StartsWith(['{'] + (['{'] + RustText(v[1..], n, k)), DoubledSlot(k))
  {
    var w, r := v[1..], RustText(v[1..], n, k);
    var pat := DoubledSlot(k);
    if StartsWith(['{'] + r, pat) {
      assert r[0] == pat[1] && r[1] == pat[2];
      TextStart(w, n, k);
    }
    if StartsWith(['{'] + (['{'] + r), pat) {
      assert r[0] == pat[2] && r[1] == pat[3];
      TextStart(w, n, k);
      assert RustText(w[1..], n, k)[0] == r[1];
      TextStart(w[1..], n, k);
    }
  }

  lemma {:induction false} FormatMeansSubst(v: string, args: seq<string>)
    requires |args| <= SLOT_LIMIT
    ensures FormatEval(RustText(v, |args|, |args|), args) == Some(Subst(v, args))
  {
    if v != "" {
      var n := |args|;
      match SlotAt(v, n)
      case Some(i) =>
        FormatMeansSubst(v[3..], args);
        var rest := RustText(v[3..], n, n);
        assert (ArgumentText(i) + rest)[4..] == rest;
      case None =>
        FormatMeansSubst(v[1..], args);
        var rest := RustText(v[1..], n, n);
        assert (Doubled(v[0]) + rest)[|Doubled(v[0])|..] == rest;
    }
  }

  /******* The TypeScript face *******/

  /** The value of an untagged template literal whose source is s (sections 12.9.6 and 13.2.8 of
      ECMA-262): an escape cooks to its character, CR LF and CR cook to LF, `${aI}` is the argument.
      None where s ends the literal early or holds an escape or expression the generator never
      writes. */
  function TemplateEval(s: string, args: seq<string>): Option<string>
    requires |args| <= SLOT_LIMIT
  {
    if s == "" then Some("")
    else if s[0] == '\\' then
      if |s| >= 2 && s[1] in "\\`$" then Emit([s[1]], TemplateEval(s[2..], args)) else None
    else if s[0] == '`' then None
    else if s[0] == '$' && |s| >= 2 && s[1] == '{' then
      match ArgumentAt(s[1..], |args|)
      case Some(i) => Emit(args[i], TemplateEval(s[5..], args))
      case None => None
    else if s[0] == '\r' then
      Emit("\n", TemplateEval(if |s| >= 2 && s[1] == '\n' then s[2..] else s[1..], args))
    else Emit([s[0]], TemplateEval(s[1..], args))
  }

  function Escaped(v: string): string
    requires v != ""
  {
    if v[0] == '\\' || v[0] == '`' || (v[0] == '$' && |v| >= 2 && v[1] == '{') then ['\\', v[0]] else [v[0]]
  }

  /** The literal once slots 0..k-1 have become `${aI}`, read off the template in one pass. */
  ghost function TsText(v: string, n: Arity, k: nat): string
    requires k <= n
  {
    if v == "" then ""
    else match SlotAt(v, n)
      case Some(i) => (if i < k then "$" + ArgumentText(i) else SlotText(i)) + TsText(v[3..], n, k)
      case None => Escaped(v) + TsText(v[1..], n, k)
  }

  method TsLiteral(v: string, n: Arity) returns (s: string)
    ensures s == TsText(v, n, n)
    ensures forall args: seq<string> | |args| == n :: TemplateEval(s, args) == Some(Subst(LineFeeds(v), args))
  {
    s := Replace(Replace(Replace(v, "\\", "\\\\"), "`", "\\`"), "${", "\\${");
    LiteralEscaped(v, n);
    for i := 0 to n
      invariant s == TsText(v, n, i)
    {
      InterpolateStep(v, n, i);
      s := Replace(s, SlotText(i), "$" + ArgumentText(i));
    }
    forall args: seq<string> | |args| == n
      ensures TemplateEval(s, args) == Some(Subst(LineFeeds(v), args))
    {
      TemplateMeansSubst(v, args);
    }
  }

  function Backslashed(v: string): string {
    Replace(Replace(v, "\\", "\\\\"), "`", "\\`")
  }

  lemma BackslashedHead(v: string)
    requires v != ""
    ensures Backslashed(v) == (if v[0] == '\\' || v[0] == '`' then ['\\', v[0]] else [v[0]]) + Backslashed(v[1..])
  {
    var tail := Replace(v[1..], "\\", "\\\\");
    assert v == [v[0]] + v[1..];
    if v[0] == '\\' {
      ReplaceTakes(v[1..], "\\", "\\\\");
      assert "\\\\" + tail == ['\\'] + (['\\'] + tail);
      ReplacePasses('\\', ['\\'] + tail, "`", "\\`");
      ReplacePasses('\\', tail, "`", "\\`");
    } else {
      ReplacePasses(v[0], v[1..], "\\", "\\\\");
      if v[0] == '`' {
        ReplaceTakes(tail, "`", "\\`");
      } else {
        ReplacePasses(v[0], tail, "`", "\\`");
      }
    }
  }

  lemma {:induction false} LiteralEscaped(v: string, n: Arity)
    ensures Replace(Backslashed(v), "${", "\\${") == TsText(v, n, 0)
  {
    if v != "" {
      LiteralEscapedHead(v);
      match SlotAt(v, n)
      case None => LiteralEscaped(v[1..], n);
      case Some(i) =>
        LiteralEscapedHead(v[1..]);
        LiteralEscapedHead(v[2..]);
        LiteralEscaped(v[3..], n);
        assert v[1..][1..] == v[2..] && v[2..][1..] == v[3..];
    }
  }

  lemma LiteralEscapedHead(v: string)
    requires v != ""
    ensures Replace(Backslashed(v), "${", "\\${") == Escaped(v) + Replace(Backslashed(v[1..]), "${", "\\${")
  {
    BackslashedHead(v);
    var tail := Backslashed(v[1..]);
    if v[0] == '\\' || v[0] == '`' {
      assert ['\\', v[0]] + tail == ['\\'] + ([v[0]] + tail);
      ReplacePasses('\\', [v[0]] + tail, "${", "\\${");
      ReplacePasses(v[0], tail, "${", "\\${");
      assert forall t: string :: ['\\'] + ([v[0]] + t) == ['\\', v[0]] + t;
    } else if v[0] == '$' {
      DollarEscaped(v);
    } else {
      ReplacePasses(v[0], tail, "${", "\\${");
    }
  }

  lemma DollarEscaped(v: string)
    requires v != "" && v[0] == '$'
    ensures Replace("$" + Backslashed(v[1..]), "${", "\\${") == Escaped(v) + Replace(Backslashed(v[1..]), "${", "\\${")
  {
    var tail := Backslashed(v[1..]);
    if |v| >= 2 {
      BackslashedHead(v[1..]);
    }
    if |v| >= 2 && v[1] == '{' {
      var rest := Backslashed(v[1..][1..]);
      assert "$" + tail == "${" + rest;
      ReplaceTakes(rest, "${", "\\${");
      ReplacePasses('{', rest, "${", "\\${");
      assert "\\$" + (['{'] + Replace(rest, "${", "\\${")) == "\\${" + Replace(rest, "${", "\\${");
    } else {
      assert ("$" + tail)[1..] == tail;
      assert tail != "" ==> tail[0] != '{';
      ReplaceSkips('$', tail, "${", "\\${");
    }
  }

  lemma {:induction false} InterpolateStep(v: string, n: Arity, k: nat)
    requires k < n
    ensures Replace(TsText(v, n, k), SlotText(k), "$" + ArgumentText(k)) == TsText(v, n, k + 1)
  {
    if v != "" {
      var pat, rep := SlotText(k), "$" + ArgumentText(k);
      match SlotAt(v, n)
      case Some(i) =>
        InterpolateStep(v[3..], n, k);
        var rest := TsText(v[3..], n, k);
        if i == k {
          ReplaceTakes(rest, pat, rep);
        } else if i < k {
          SkipArgument(i, rest, pat, rep);
          assert ("$" + ArgumentText(i)) + rest == ['$'] + (ArgumentText(i) + rest);
          ReplacePasses('$', ArgumentText(i) + rest, pat, rep);
        } else {
          SkipSlot(i, k, rest);
        }
      case None =>
        InterpolateStep(v[1..], n, k);
        var rest := TsText(v[1..], n, k);
        if v[0] == '{' {
          LiteralBraceStops(v, n, k);
        }
        SkipEscaped(v, rest, k);
    }
  }

  lemma SkipEscaped(v: string, rest: string, k: nat)
    requires k < SLOT_LIMIT && v != ""
    requires v[0] == '{' ==> !StartsWith(['{'] + rest, SlotText(k))
    ensures Replace(Escaped(v) + rest, SlotText(k), "$" + ArgumentText(k))
         == Escaped(v) + Replace(rest, SlotText(k), "$" + ArgumentText(k))
  {
    var pat, rep := SlotText(k), "$" + ArgumentText(k);
    if v[0] == '{' {
      ReplaceSkips(v[0], rest, pat, rep);
    } else {
      ReplacePasses(v[0], rest, pat, rep);
    }
    ReplacePasses('\\', [v[0]] + rest, pat, rep);
    assert |Escaped(v)| == 2 ==> Escaped(v) + rest == ['\\'] + ([v[0]] + rest);
  }

  lemma SkipSlot(i: nat, k: nat, rest: string)
    requires i < SLOT_LIMIT && k < SLOT_LIMIT && i != k
    ensures Replace(SlotText(i) + rest, SlotText(k), "$" + ArgumentText(k))
         == SlotText(i) + Replace(rest, SlotText(k), "$" + ArgumentText(k))
  {
    var pat, rep, d := SlotText(k), "$" + ArgumentText(k), Digit(i);
    var r1 := ['}'] + rest;
    var r2 := [d] + r1;
    assert SlotText(i) + rest == ['{'] + r2;
    assert r2[0] == d != Digit(k) == pat[1];
    ReplaceSkips('{', r2, pat, rep);
    ReplacePasses(d, r1, pat, rep);
    ReplacePasses('}', rest, pat, rep);
  }

  lemma TsTextStart(w: string, n: Arity, k: nat)
    requires k <= n && TsText(w, n, k) != ""
    ensures w != ""
    ensures var r := TsText(w, n, k);
      && (w[0] == '\n' <==> r[0] == '\n')
      && (r[0] == '{' ==> w[0] == '{')
      && (r[0] == '}' ==> w[0] == '}')
      && (k < n && r[0] == Digit(k) ==> w[0] == Digit(k) && r[1..] == TsText(w[1..], n, k))
  {
  }

  lemma LiteralBraceStops(v: string, n: Arity, k: nat)
    requires k < n && v != "" && v[0] == '{' && SlotAt(v, n).None?
    ensures !StartsWith(['{'] + TsText(v[1..], n, k), SlotText(k))
  {
    var w, r := v[1..], TsText(v[1..], n, k);
    if StartsWith(['{'] + r, SlotText(k)) {
      assert r[0] == SlotText(k)[1] && r[1] == SlotText(k)[2];
      TsTextStart(w, n, k);
      assert TsText(w[1..], n, k)[0] == r[1];
      TsTextStart(w[1..], n, k);
    }
  }

  lemma {:induction false} TemplateMeansSubst(v: string, args: seq<string>)
    requires |args| <= SLOT_LIMIT
    ensures TemplateEval(TsText(v, |args|, |args|), args) == Some(Subst(LineFeeds(v), args))
  {
    if v != "" {
      var n := |args|;
      LineFeedsKeepSlots(v, n);
      match SlotAt(v, n)
      case Some(i) =>
        TemplateMeansSubst(v[3..], args);
        TemplateTakesSlot(i, TsText(v[3..], n, n), args);
      case None =>
        TemplateMeansSubst(v[1..], args);
        LineFeedsHead(v);
        if v[0] != '\r' {
          TemplateTakesLiteral(v, args);
        } else {
          if |v| >= 2 && v[1] == '\n' {
            TemplateMeansSubst(v[2..], args);
          }
          TemplateTakesLineEnd(v, args);
        }
    }
  }

  lemma TemplateTakesSlot(i: nat, rest: string, args: seq<string>)
    requires i < |args| <= SLOT_LIMIT
    ensures TemplateEval("$" + ArgumentText(i) + rest, args) == Emit(args[i], TemplateEval(rest, args))
  {
    var s := "$" + ArgumentText(i) + rest;
    assert s[1..] == ArgumentText(i) + rest;
    assert s[5..] == rest;
  }

  lemma TemplateTakesLiteral(v: string, args: seq<string>)
    requires |args| <= SLOT_LIMIT && v != "" && v[0] != '\r' && SlotAt(v, |args|).None?
    ensures TemplateEval(TsText(v, |args|, |args|), args)
         == Emit([v[0]], TemplateEval(TsText(v[1..], |args|, |args|), args))
  {
    var n := |args|;
    var s, rest := TsText(v, n, n), TsText(v[1..], n, n);
    assert s == Escaped(v) + rest && s[|Escaped(v)|..] == rest;
    if rest != "" {
      TsTextStart(v[1..], n, n);
    }
  }

  lemma TemplateTakesLineEnd(v: string, args: seq<string>)
    requires |args| <= SLOT_LIMIT && v != "" && v[0] == '\r'
    ensures TemplateEval(TsText(v, |args|, |args|), args) == Emit("\n",
      TemplateEval(TsText(if |v| >= 2 && v[1] == '\n' then v[2..] else v[1..], |args|, |args|), args))
  {
    var n := |args|;
    var s, rest := TsText(v, n, n), TsText(v[1..], n, n);
    assert s == ['\r'] + rest && s[1..] == rest;
    if rest != "" {
      TsTextStart(v[1..], n, n);
    }
    if |v| >= 2 && v[1] == '\n' {
      assert v[1..][1..] == v[2..];
      assert rest == ['\n'] + TsText(v[2..], n, n);
      assert s[2..] == TsText(v[2..], n, n);
    }
  }

  lemma LineFeedsHead(v: string)
    requires v != ""
    ensures LineFeeds(v) != ""
    ensures LineFeeds(v)[0] == if v[0] == '\r' then '\n' else v[0]
    ensures v[0] != '\r' ==> LineFeeds(v)[1..] == LineFeeds(v[1..])
    ensures v[0] == '\r' ==> LineFeeds(v)[1..] == LineFeeds(if |v| >= 2 && v[1] == '\n' then v[2..] else v[1..])
  {
  }

  /** Line-end rewriting neither makes nor breaks a slot. */
  lemma LineFeedsKeepSlots(v: string, n: Arity)
    requires v != ""
    ensures LineFeeds(v) != ""
    ensures SlotAt(LineFeeds(v), n) == SlotAt(v, n)
    ensures SlotAt(v, n).Some? ==> LineFeeds(v)[3..] == LineFeeds(v[3..])
  {
    var w := LineFeeds(v);
    LineFeedsHead(v);
    if v[0] == '{' && |v| >= 2 {
      LineFeedsHead(v[1..]);
      assert w[1] == LineFeeds(v[1..])[0];
      if v[1] != '\r' && |v| >= 3 {
        LineFeedsHead(v[2..]);
        assert v[1..][1..] == v[2..] && v[2..][1..] == v[3..];
        assert w[1..][1..] == LineFeeds(v[2..]);
        assert w[2] == LineFeeds(v[2..])[0];
        assert v[2] == '}' ==> w[1..][1..][1..] == LineFeeds(v[3..]);
      }
    }
  }

  /******* The two faces agree exactly on templates without a carriage return *******/

  function Returns(s: string): nat {
    if s == "" then 0 else (if s[0] == '\r' then 1 else 0) + Returns(s[1..])
  }

  lemma ReturnsAdd(a: string, b: string)
    ensures Returns(a + b) == Returns(a) + Returns(b)
  {
    if a == "" {
      assert a + b == b;
    } else {
      ReturnsAdd(a[1..], b);
      assert (a + b)[1..] == a[1..] + b;
    }
  }

  lemma ReturnsZero(s: string)
    ensures Returns(s) == 0 <==> '\r' !in s
  {
    assert s != "" ==> s == [s[0]] + s[1..];
  }

  lemma {:induction false} ReturnsLost(v: string, args: seq<string>)
    requires |args| <= SLOT_LIMIT
    ensures Returns(Subst(v, args)) == Returns(Subst(LineFeeds(v), args)) + Returns(v)
  {
    if v != "" {
      LineFeedsKeepSlots(v, |args|);
      match SlotAt(v, |args|)
      case Some(i) =>
        ReturnsLost(v[3..], args);
        ReturnsAdd(args[i], Subst(v[3..], args));
        ReturnsAdd(args[i], Subst(LineFeeds(v[3..]), args));
        ReturnsAdd(v[..3], v[3..]);
        assert v == v[..3] + v[3..];
        ReturnsZero(SlotText(i));
      case None =>
        LineFeedsHead(v);
        var next := if v[0] == '\r' && |v| >= 2 && v[1] == '\n' then v[2..] else v[1..];
        ReturnsLost(next, args);
        ReturnsAdd([v[0]], Subst(v[1..], args));
        ReturnsAdd([LineFeeds(v)[0]], Subst(LineFeeds(v)[1..], args));
        if next != v[1..] {
          assert v[1..] == ['\n'] + next;
          assert Subst(v[1..], args) == ['\n'] + Subst(next, args);
          ReturnsAdd(['\n'], Subst(next, args));
        }
    }
  }

  /** Losing carriage returns shows in what the template renders, whatever the arguments. */
  lemma SubstsAgree(v: string, args: seq<string>)
    requires |args| <= SLOT_LIMIT
    ensures Subst(v, args) == Subst(LineFeeds(v), args) <==> '\r' !in v
  {
    ReturnsLost(v, args);
    ReturnsZero(v);
    if '\r' !in v {
      LineFeedsIdentity(v);
    }
  }

  /******* A section of the catalog *******/

  type Table = map<string, string>

  predicate Contiguous(slots: set<nat>) {
    slots == Below(|slots|)
  }

  /** The three rules of the catalog. */
  predicate Aligned(zh: Table, en: Table) {
    && zh.Keys == en.Keys
    && (forall k | k in zh :: SlotsAligned(zh[k], en[k]))
    && Distinct(zh)
    && Distinct(en)
  }

  predicate SlotsAligned(z: string, e: string) {
    Contiguous(Slots(z)) && Slots(e) == Slots(z)
  }

  predicate Distinct(t: Table) {
    forall j, k | j in t && k in t && j != k :: t[j] != t[k]
  }

  method Align(zh: Table, en: Table) returns (ok: bool)
    ensures ok <==> Aligned(zh, en)
  {
    ok := SlotsAlign(zh, en);
    if !ok || !(en.Keys <= zh.Keys) { return false; }
    ok := TextsDistinct(zh);
    if ok {
      ok := TextsDistinct(en);
    }
  }

  method SlotsAlign(zh: Table, en: Table) returns (ok: bool)
    ensures ok <==> zh.Keys <= en.Keys && forall k | k in zh :: SlotsAligned(zh[k], en[k])
  {
    var todo := zh.Keys;
    while todo != {}
      invariant todo <= zh.Keys
      invariant forall k | k in zh && k !in todo :: k in en && SlotsAligned(zh[k], en[k])
    {
      var k :| k in todo;
      if k !in en { return false; }
      if !SlotsAligned(zh[k], en[k]) { return false; }
      todo := todo - {k};
    }
    return true;
  }

  method TextsDistinct(t: Table) returns (ok: bool)
    ensures ok <==> Distinct(t)
  {
    var todo, texts := t.Keys, map[];
    while todo != {}
      invariant todo <= t.Keys
      invariant forall v :: v in texts ==> texts[v] in t.Keys - todo && t[texts[v]] == v
      invariant forall k | k in t.Keys - todo :: t[k] in texts && texts[t[k]] == k
    {
      var k :| k in todo;
      if t[k] in texts {
        assert texts[t[k]] != k && t[texts[t[k]]] == t[k];
        return false;
      }
      texts := texts[t[k] := k];
      todo := todo - {k};
    }
    return true;
  }

  /** What is written for one text of an entry: a literal for each face, the Rust one as `{:?}` prints it.
      Without slots both are plain strings, and with slots the Rust one is the argument of `format!`. */
  datatype Face = Plain(rust: string, ts: string) | Template(rust: string, ts: string)

  datatype Entry = Entry(arity: Arity, zh: Face, en: Face)

  /** What the generated Rust function returns; None where it does not compile. */
  function RenderRust(face: Face, args: seq<string>): Option<string>
    requires |args| <= SLOT_LIMIT
  {
    match Quoting.Unquote(face.rust, Quoting.Rust)
    case None => None
    case Some(text) => if face.Plain? then Some(text) else FormatEval(text, args)
  }

  /** What the generated TypeScript entry is or returns; None where it does not compile. */
  function RenderTs(face: Face, args: seq<string>): Option<string>
    requires |args| <= SLOT_LIMIT
  {
    if face.Plain? then Quoting.Unquote(face.ts, Quoting.Script) else TemplateEval(face.ts, args)
  }

  /** The TypeScript face keeps the text: a template literal loses carriage returns, and a plain literal
      does not compile with a NUL in front of a digit. */
  predicate Keeps(v: string, n: Arity) {
    if n == 0 then !Quoting.NulDigit(v) else '\r' !in v
  }

  /** The face of a text of arity n: in Rust it says what the text says, under all arguments, and in
      TypeScript as far as that goes. */
  ghost predicate Says(face: Face, v: string, n: Arity) {
    && (face.Plain? <==> n == 0)
    && forall args: seq<string> | |args| == n ::
      && RenderRust(face, args) == Some(Subst(v, args))
      && RenderTs(face, args) == TsSays(v, args)
  }

  function TsSays(v: string, args: seq<string>): Option<string>
    requires |args| <= SLOT_LIMIT
  {
    if args != [] then Some(Subst(LineFeeds(v), args)) else if Quoting.NulDigit(v) then None else Some(v)
  }

  lemma {:induction false} NothingToSubst(v: string)
    ensures Subst(v, []) == v
  {
    if v != "" {
      NothingToSubst(v[1..]);
    }
  }

  method GenerateFace(v: string, n: Arity, shows: char -> bool) returns (face: Face)
    requires Quoting.PrintsAscii(shows)
    ensures Says(face, v, n)
  {
    if n == 0 {
      NothingToSubst(v);
      Quoting.QuoteRead(v, shows);
      return Plain(Quoting.Quote(v, shows), Quoting.Quote(v, shows));
    }
    var rust := RustFormat(v, n);
    var ts := TsLiteral(v, n);
    Quoting.QuoteRead(rust, shows);
    return Template(Quoting.Quote(rust, shows), ts);
  }

  /** The two faces of an entry render the same under every argument list if and only if the TypeScript
      one keeps the text; otherwise they differ under every one. */
  lemma FacesAgree(face: Face, v: string, n: Arity, args: seq<string>)
    requires Says(face, v, n) && |args| == n
    ensures RenderRust(face, args) == RenderTs(face, args) <==> Keeps(v, n)
  {
    NothingToSubst(v);
    SubstsAgree(v, args);
  }

  /******* The names of entries *******/

  /** The name an entry is written under, in both faces. */
  function NameOf(key: string): string {
    Replace(key, "-", "_")
  }

  predicate OneName(j: string, k: string) {
    |j| == |k| && forall i | 0 <= i < |j| :: j[i] == k[i] || (j[i] in "-_" && k[i] in "-_")
  }

  lemma {:induction false} NameAt(key: string, i: nat)
    requires i < |key|
    ensures |NameOf(key)| == |key| && NameOf(key)[i] == if key[i] == '-' then '_' else key[i]
  {
    var head, rest := [key[0]], key[1..];
    assert key == head + rest;
    if key[0] == '-' {
      ReplaceTakes(rest, "-", "_");
    } else {
      ReplacePasses(key[0], rest, "-", "_");
    }
    if rest != "" {
      NameAt(rest, if i > 0 then i - 1 else 0);
    }
  }

  lemma NameLength(key: string)
    ensures |NameOf(key)| == |key|
  {
    if key != "" {
      NameAt(key, 0);
    }
  }

  /** Two entries are written under one name exactly if their keys differ in nothing but dashes and
      underscores; the rules of the catalog do not keep that out. */
  lemma NamesCollide(j: string, k: string)
    ensures NameOf(j) == NameOf(k) <==> OneName(j, k)
  {
    NameLength(j);
    NameLength(k);
    if |j| == |k| {
      forall i | 0 <= i < |j|
        ensures NameOf(j)[i] == NameOf(k)[i] <==> (j[i] == k[i] || (j[i] in "-_" && k[i] in "-_"))
      {
        NameAt(j, i);
        NameAt(k, i);
      }
    }
  }

  /** Aligned tables whose two entries are written under one name. */
  lemma AlignedYetOneName()
    ensures exists zh: Table, en: Table, j: string, k: string ::
      Aligned(zh, en) && j in zh && k in zh && j != k && NameOf(j) == NameOf(k)
  {
    var j, k := "a-b", "a_b";
    var t: Table := map[j := "x", k := "y"];
    assert j[1] == '-' && k[1] == '_';
    assert OneName(j, k) && j != k;
    NamesCollide(j, k);
    NoSlots('x');
    NoSlots('y');
    assert t[j] == "x" && t[k] == "y" && t[j][0] != t[k][0];
    assert Aligned(t, t);
  }

  lemma NoSlots(c: char)
    ensures Slots([c]) == {} && SlotsAligned([c], [c])
  {
    forall i: nat | i < SLOT_LIMIT
      ensures !Contains([c], SlotText(i))
    {
      assert |SlotText(i)| == 3 && [c][1..] == "";
    }
  }

  /******* A whole section *******/

  /** The build of one section: it is refused exactly when the tables break a rule, and otherwise
      every entry of both languages renders to its own template under all arguments, each slot of
      the template being one of the arguments the function takes. */
  method GenerateSection(zh: Table, en: Table, shows: char -> bool) returns (out: Option<map<string, Entry>>)
    requires Quoting.PrintsAscii(shows)
    ensures out.Some? <==> Aligned(zh, en)
    ensures out.Some? ==> out.value.Keys == zh.Keys && forall k | k in zh ::
      && Slots(zh[k]) == Slots(en[k]) == Below(out.value[k].arity)
      && Says(out.value[k].zh, zh[k], out.value[k].arity)
      && Says(out.value[k].en, en[k], out.value[k].arity)
  {
    var ok := Align(zh, en);
    if !ok {
      return None;
    }
    var entries := GenerateEntries(zh, en, shows);
    forall k | k in zh
      ensures Slots(zh[k]) == Slots(en[k]) == Below(entries[k].arity)
    {
      ArityCovers(zh[k], en[k]);
    }
    return Some(entries);
  }

  lemma ArityCovers(z: string, e: string)
    requires SlotsAligned(z, e)
    ensures Slots(z) == Slots(e) == Below(ArgCount(z))
  {
  }

  method GenerateEntries(zh: Table, en: Table, shows: char -> bool) returns (entries: map<string, Entry>)
    requires zh.Keys == en.Keys && Quoting.PrintsAscii(shows)
    ensures entries.Keys == zh.Keys && forall k | k in zh ::
      && entries[k].arity == ArgCount(zh[k])
      && Says(entries[k].zh, zh[k], entries[k].arity)
      && Says(entries[k].en, en[k], entries[k].arity)
  {
    var todo := zh.Keys;
    entries := map[];
    while todo != {}
      invariant todo <= zh.Keys && entries.Keys == zh.Keys - todo
      invariant forall k | k in entries ::
        && entries[k].arity == ArgCount(zh[k])
        && Says(entries[k].zh, zh[k], entries[k].arity)
        && Says(entries[k].en, en[k], entries[k].arity)
    {
      var k :| k in todo;
      var n := ArgCount(zh[k]);
      var z := GenerateFace(zh[k], n, shows);
      var e := GenerateFace(en[k], n, shows);
      entries := entries[k := Entry(n, z, e)];
      todo := todo - {k};
    }
  }
}
