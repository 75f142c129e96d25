/** String helpers shared by the modules: `unquote` and `double_escape`. */
module Util {
  /** An argument that may or may not be a Python `str`; other objects are only compared. */
  datatype PyArg = Str(s: string) | NonStr(tag: nat)

  predicate IsQuote(c: char)
  {
    c == '\'' || c == '"'
  }

  /** The string starts and ends with a quote character (the two need not match). */
  predicate Quoted(s: string)
  {
    |s| > 0 && IsQuote(s[0]) && IsQuote(s[|s| - 1])
  }

  /** `unquote` on a string: `s[1:-1]` when it is quoted, `s` otherwise. */
  function UnquoteText(s: string): (r: string)
    ensures !Quoted(s) ==> r == s
    ensures Quoted(s) ==> |r| == if |s| >= 2 then |s| - 2 else 0
    ensures Quoted(s) && |s| >= 2 ==> s == [s[0]] + r + [s[|s| - 1]]
  {
    if Quoted(s) then
      if |s| >= 2 then s[1..|s| - 1] else ""
    else s
  }

  /** `unquote(s)`: non-strings come back unchanged. */
  function Unquote(a: PyArg): (r: PyArg)
    ensures a.NonStr? ==> r == a
    ensures a.Str? ==> r.Str? && r.s == UnquoteText(a.s)
  {
    match a
    case Str(s) => Str(UnquoteText(s))
    case NonStr(_) => a
  }

  /** `s.replace(c, rep)` for a one-character pattern. */
  function ReplaceChar(s: string, c: char, rep: string): (r: string)
  {
    if s == [] then [] else (if s[0] == c then rep else [s[0]]) + ReplaceChar(s[1..], c, rep)
  }

  lemma {:induction false} ReplaceCharAppend(a: string, b: string, c: char, rep: string)
    ensures ReplaceChar(a + b, c, rep) == ReplaceChar(a, c, rep) + ReplaceChar(b, c, rep)
    decreases |a|
  {
    if a == [] {
      assert a + b == b;
    } else {
      assert (a + b)[0] == a[0];
      assert (a + b)[1..] == a[1..] + b;
      ReplaceCharAppend(a[1..], b, c, rep);
    }
  }

  /** `double_escape(s)`: backslashes, then double quotes, then single quotes get a backslash. */
  function DoubleEscape(s: string): (r: string)
  {
    ReplaceChar(ReplaceChar(ReplaceChar(s, '\\', "\\\\"), '"', "\\\""), '\'', "\\'")
  }

  predicate Escaped(c: char)
  {
    c == '\\' || c == '"' || c == '\''
  }

  /** The one-pass reading of the three replacements: each escaped character gets a backslash. */
  function EscapeEach(s: string): (r: string)
  {
    if s == [] then [] else (if Escaped(s[0]) then ['\\', s[0]] else [s[0]]) + EscapeEach(s[1..])
  }

  function EscapedCount(s: string): nat
  {
    if s == [] then 0 else (if Escaped(s[0]) then 1 else 0) + EscapedCount(s[1..])
  }

  /** The chained replacements never re-escape the backslashes inserted by an earlier one. */
  lemma {:induction false} DoubleEscapeOnePass(s: string)
    ensures DoubleEscape(s) == EscapeEach(s)
    decreases |s|
  {
    if s != [] {
      var x, t := s[0], s[1..];
      assert s == [x] + t;
      ReplaceCharAppend([x], t, '\\', "\\\\");
      var a1, a2 := ReplaceChar([x], '\\', "\\\\"), ReplaceChar(t, '\\', "\\\\");
      ReplaceCharAppend(a1, a2, '"', "\\\"");
      var b1, b2 := ReplaceChar(a1, '"', "\\\""), ReplaceChar(a2, '"', "\\\"");
      ReplaceCharAppend(b1, b2, '\'', "\\'");
      DoubleEscapeOnePass(t);
      assert ReplaceChar(b1, '\'', "\\'") == if Escaped(x) then ['\\', x] else [x];
    }
  }

  /** The escaped text is the input plus one backslash per escaped character. */
  lemma DoubleEscapeLength(s: string)
    ensures |DoubleEscape(s)| == |s| + EscapedCount(s)
  {
    DoubleEscapeOnePass(s);
    EscapeEachLength(s);
  }

  lemma {:induction false} EscapeEachLength(s: string)
    ensures |EscapeEach(s)| == |s| + EscapedCount(s)
    decreases |s|
  {
    if s != [] {
      EscapeEachLength(s[1..]);
    }
  }

  /** Reads `\\`, `\"` and `\'` back as the single character they stand for. */
  function Unescape(s: string): (r: string)
    decreases |s|
  {
    if s == [] then []
    else if |s| >= 2 && s[0] == '\\' && Escaped(s[1]) then [s[1]] + Unescape(s[2..])
    else [s[0]] + Unescape(s[1..])
  }

  lemma {:induction false} UnescapeEscapeEach(s: string)
    ensures Unescape(EscapeEach(s)) == s
    decreases |s|
  {
    if s != [] {
      var e := EscapeEach(s);
      var tail := EscapeEach(s[1..]);
      UnescapeEscapeEach(s[1..]);
      if Escaped(s[0]) {
        assert e == ['\\', s[0]] + tail;
        assert e[2..] == tail;
      } else {
        assert e == [s[0]] + tail;
        assert e[1..] == tail;
      }
    }
  }

  /** Decoding the output of `double_escape` gives back its input. */
  lemma DoubleEscapeRoundTrip(s: string)
    ensures Unescape(DoubleEscape(s)) == s
  {
    DoubleEscapeOnePass(s);
    UnescapeEscapeEach(s);
  }
}
