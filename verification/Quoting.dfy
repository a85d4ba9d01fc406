/** String literals as Rust's `{:?}` prints them, and what Rust and ECMAScript read in them. */
module Quoting {
  import opened Results

  /** Which characters Rust prints as they are is a matter of Unicode tables; of ASCII it is space to `~`. */
  ghost predicate PrintsAscii(shows: char -> bool) {
    forall c: char | ' ' <= c <= '~' :: shows(c)
  }

  predicate IsDigit(c: char) {
    '0' <= c <= '9'
  }

  function HexDigit(d: nat): char
    requires d < 16
  {
    if d < 10 then '0' + d as char else 'a' + (d - 10) as char
  }

  function HexValue(c: char): Option<nat> {
    if IsDigit(c) then Some(c as int - '0' as int)
    else if 'a' <= c <= 'f' then Some(c as int - 'a' as int + 10)
    else if 'A' <= c <= 'F' then Some(c as int - 'A' as int + 10)
    else None
  }

  function Hex(n: nat): string {
    if n < 16 then [HexDigit(n)] else Hex(n / 16) + [HexDigit(n % 16)]
  }

  /** One character as `{:?}` prints it within a string. */
  function Mark(c: char, shows: char -> bool): string {
    if c == '\0' then "\\0"
    else if c == '\t' then "\\t"
    else if c == '\r' then "\\r"
    else if c == '\n' then "\\n"
    else if c == '\\' || c == '"' then ['\\', c]
    else if shows(c) then [c]
    else "\\u{" + (Hex(c as int) + "}")
  }

  function Marks(v: string, shows: char -> bool): string {
    if v == "" then "" else Mark(v[0], shows) + Marks(v[1..], shows)
  }

  function Quote(v: string, shows: char -> bool): string {
    "\"" + (Marks(v, shows) + "\"")
  }

  datatype Reader = Rust | Script

  function Put(c: char, rest: Option<string>): Option<string> {
    if rest.Some? then Some([c] + rest.value) else None
  }

  /** The number before the closing brace, and what follows it. */
  function Scalar(s: string, value: nat): (r: Option<(nat, string)>)
    ensures r.Some? ==> |r.value.1| < |s|
  {
    if s == "" then None
    else if s[0] == '}' then Some((value, s[1..]))
    else match HexValue(s[0])
      case None => None
      case Some(d) => Scalar(s[1..], value * 16 + d)
  }

  predicate IsScalar(n: nat) {
    n < 0xD800 || 0xE000 <= n < 0x11_0000
  }

  /** What a literal holds from behind its opening quote on; None where it is malformed, or holds an
      escape or a line end that `{:?}` never prints. ECMAScript refuses `\0` before a digit in module
      code (section 12.9.4 of ECMA-262). */
  function Read(s: string, reader: Reader): Option<string>
    decreases |s|, 1
  {
    if s == "" || s[0] == '\n' || s[0] == '\r' then None
    else if s[0] == '"' then if |s| == 1 then Some("") else None
    else if s[0] != '\\' then Put(s[0], Read(s[1..], reader))
    else if |s| == 1 then None
    else match s[1]
      case 't' => Put('\t', Read(s[2..], reader))
      case 'r' => Put('\r', Read(s[2..], reader))
      case 'n' => Put('\n', Read(s[2..], reader))
      case '\\' => Put('\\', Read(s[2..], reader))
      case '"' => Put('"', Read(s[2..], reader))
      case '0' =>
        if reader.Script? && |s| > 2 && IsDigit(s[2]) then None else Put('\0', Read(s[2..], reader))
      case 'u' => if |s| > 2 && s[2] == '{' then ReadScalar(Scalar(s[3..], 0), s, reader) else None
      case _ => None
  }

  function ReadScalar(found: Option<(nat, string)>, s: string, reader: Reader): Option<string>
    requires found.Some? ==> |found.value.1| < |s|
    decreases |s|, 0
  {
    if found.Some? && IsScalar(found.value.0) then Put(found.value.0 as char, Read(found.value.1, reader)) else None
  }

  function Unquote(s: string, reader: Reader): Option<string> {
    if s != "" && s[0] == '"' then Read(s[1..], reader) else None
  }

  /** A NUL in front of a digit. */
  predicate NulDigit(v: string) {
    |v| > 1 && ((v[0] == '\0' && IsDigit(v[1])) || NulDigit(v[1..]))
  }

  lemma {:induction false} ScalarReads(n: nat, tail: string)
    ensures Scalar(Hex(n) + tail, 0) == Scalar(tail, n)
    decreases n
  {
    if n < 16 {
      assert ([HexDigit(n)] + tail)[1..] == tail;
    } else {
      var rest := [HexDigit(n % 16)] + tail;
      ScalarReads(n / 16, rest);
      assert Hex(n) + tail == Hex(n / 16) + rest;
      assert rest[1..] == tail;
    }
  }

  lemma ScalarMarked(c: char, tail: string, reader: Reader)
    ensures Read("\\u{" + (Hex(c as int) + "}") + tail, reader) == Put(c, Read(tail, reader))
  {
    var s := "\\u{" + (Hex(c as int) + "}") + tail;
    ScalarReads(c as int, "}" + tail);
    assert s[3..] == Hex(c as int) + ("}" + tail);
    assert ("}" + tail)[1..] == tail;
  }

  /** A mark is read as its character, but for a NUL that a digit follows. */
  lemma MarkRead(c: char, shows: char -> bool, tail: string, reader: Reader)
    ensures Read(Mark(c, shows) + tail, reader)
      == if reader.Script? && c == '\0' && tail != "" && IsDigit(tail[0]) then None else Put(c, Read(tail, reader))
  {
    var m := Mark(c, shows);
    assert (m + tail)[|m|..] == tail;
    if |m| > 2 {
      ScalarMarked(c, tail, reader);
    }
  }

  lemma MarkStart(v: string, shows: char -> bool)
    requires PrintsAscii(shows) && v != ""
    ensures Mark(v[0], shows) != "" && (IsDigit(Mark(v[0], shows)[0]) <==> IsDigit(v[0]))
  {
    assert IsDigit(v[0]) ==> shows(v[0]);
  }

  /** Rust reads every text back from its literal; ECMAScript does, too, if and only if no NUL stands in
      front of a digit. */
  lemma {:induction false} MarksRead(v: string, shows: char -> bool, reader: Reader)
    requires PrintsAscii(shows)
    ensures Read(Marks(v, shows) + "\"", reader) == if reader.Script? && NulDigit(v) then None else Some(v)
  {
    if v == "" {
      assert "" + "\"" == "\"";
    } else {
      var tail := Marks(v[1..], shows) + "\"";
      MarksRead(v[1..], shows, reader);
      MarkRead(v[0], shows, tail, reader);
      assert Marks(v, shows) + "\"" == Mark(v[0], shows) + tail;
      if v[1..] != "" {
        MarkStart(v[1..], shows);
      }
      assert v == [v[0]] + v[1..];
    }
  }

  lemma QuoteRead(v: string, shows: char -> bool)
    requires PrintsAscii(shows)
    ensures Unquote(Quote(v, shows), Rust) == Some(v)
    ensures Unquote(Quote(v, shows), Script) == if NulDigit(v) then None else Some(v)
  {
    assert Quote(v, shows)[1..] == Marks(v, shows) + "\"";
    MarksRead(v, shows, Rust);
    MarksRead(v, shows, Script);
  }
}
