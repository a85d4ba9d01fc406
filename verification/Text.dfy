/** Prefixes, replacement and line ends in strings. */
module Text {
  predicate StartsWith(s: string, p: string) {
    |p| <= |s| && s[..|p|] == p
  }

  /** Leftmost, non-overlapping replacement: Rust's and Python's string `replace`. */
  function Replace(s: string, pat: string, rep: string): string
    requires pat != ""
  {
    if s == "" then ""
    else if StartsWith(s, pat) then rep + Replace(s[|pat|..], pat, rep)
    else [s[0]] + Replace(s[1..], pat, rep)
  }

  lemma ReplaceSkips(c: char, rest: string, pat: string, rep: string)
    requires pat != "" && !StartsWith([c] + rest, pat)
    ensures Replace([c] + rest, pat, rep) == [c] + Replace(rest, pat, rep)
  {
    assert ([c] + rest)[1..] == rest;
  }

  lemma ReplacePasses(c: char, rest: string, pat: string, rep: string)
    requires pat != "" && c != pat[0]
    ensures Replace([c] + rest, pat, rep) == [c] + Replace(rest, pat, rep)
  {
    assert ([c] + rest)[0] != pat[0];
    ReplaceSkips(c, rest, pat, rep);
  }

  lemma ReplaceTakes(rest: string, pat: string, rep: string)
    requires pat != ""
    ensures Replace(pat + rest, pat, rep) == rep + Replace(rest, pat, rep)
  {
    assert (pat + rest)[|pat|..] == rest;
  }

  /** CR LF and CR become LF: what a template literal and a file opened as text make of line ends. */
  function LineFeeds(v: string): string {
    if v == "" then ""
    else if v[0] == '\r' then "\n" + LineFeeds(if |v| >= 2 && v[1] == '\n' then v[2..] else v[1..])
    else [v[0]] + LineFeeds(v[1..])
  }

  lemma LineFeedsIdentity(v: string)
    requires '\r' !in v
    ensures LineFeeds(v) == v
  {
  }
}
