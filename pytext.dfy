/**
 * The pieces of Python's `str` behaviour that the server relies on:
 * `strip()`, filtering comprehensions, `find()`, `int()` on text and
 * `str()` on integers.
 */
module PyText {
  import opened Wrappers

  /** The characters for which Python's `str.isspace()` holds. */
  predicate IsSpace(c: char)
  {
    c == ' ' || ('\t' <= c <= '\r') || ('\U{1c}' <= c <= '\U{1f}')
    || c == '\U{85}' || c == '\U{a0}' || c == '\U{1680}'
    || ('\U{2000}' <= c <= '\U{200a}') || c == '\U{2028}' || c == '\U{2029}'
    || c == '\U{202f}' || c == '\U{205f}' || c == '\U{3000}'
  }

  predicate AllSpace(s: string)
  {
    forall i :: 0 <= i < |s| ==> IsSpace(s[i])
  }

  /** `s.lstrip()`: the longest suffix of `s` not starting with whitespace. */
  function StripLeft(s: string): (r: string)
    ensures |r| <= |s| && r == s[|s| - |r|..]
    ensures r == [] || !IsSpace(r[0])
    ensures AllSpace(s[..|s| - |r|])
  {
    if s != [] && IsSpace(s[0]) then StripLeft(s[1..]) else s
  }

  /** `s.rstrip()`: the longest prefix of `s` not ending with whitespace. */
  function StripRight(s: string): (r: string)
    ensures |r| <= |s| && r == s[..|r|]
    ensures r == [] || !IsSpace(r[|r| - 1])
    ensures AllSpace(s[|r|..])
  {
    if s != [] && IsSpace(s[|s| - 1]) then StripRight(s[..|s| - 1]) else s
  }

  /** The number of whitespace characters `s.strip()` removes from the front. */
  function LeadingSpaces(s: string): (n: nat)
    ensures n <= |s|
  {
    |s| - |StripLeft(s)|
  }

  /** `s.strip()`: `s` without leading and trailing whitespace. */
  function Strip(s: string): (r: string)
    ensures |r| <= |s| && LeadingSpaces(s) + |r| <= |s|
    ensures r == [] || (!IsSpace(r[0]) && !IsSpace(r[|r| - 1]))
    ensures r == s[LeadingSpaces(s)..LeadingSpaces(s) + |r|]
  {
    StripRight(StripLeft(s))
  }

  lemma StripEmpty(s: string)
    ensures Strip(s) == [] <==> AllSpace(s)
  {
    var l := StripLeft(s);
    var k := |s| - |l|;
    if Strip(s) == [] {
      assert AllSpace(l) by {
        assert l[0..] == l;
      }
      assert l == [];
      forall i | 0 <= i < |s| ensures IsSpace(s[i]) {
        assert s[..k][i] == s[i];
      }
    }
  }

  lemma StripUnchanged(t: string)
    requires t == [] || (!IsSpace(t[0]) && !IsSpace(t[|t| - 1]))
    ensures Strip(t) == t
  {
    assert StripLeft(t) == t;
    assert StripRight(t) == t;
  }

  lemma StripIdempotent(s: string)
    ensures Strip(Strip(s)) == Strip(s)
  {
    StripUnchanged(Strip(s));
  }

  /** `"".join(c for c in s if keep(c))`. */
  function Filter(s: string, keep: char -> bool): (r: string)
    ensures |r| <= |s|
    ensures forall c :: c in r ==> keep(c)
    ensures forall i :: 0 <= i < |s| && keep(s[i]) ==> s[i] in r
  {
    if s == [] then [] else (if keep(s[0]) then [s[0]] else []) + Filter(s[1..], keep)
  }

  /** `sub` can be obtained from `s` by deleting characters. */
  predicate IsSubsequence(sub: string, s: string)
    decreases |s|
  {
    if sub == [] then true
    else if s == [] then false
    else (sub[0] == s[0] && IsSubsequence(sub[1..], s[1..])) || IsSubsequence(sub, s[1..])
  }

  lemma {:induction false} FilterIsSubsequence(s: string, keep: char -> bool)
    ensures IsSubsequence(Filter(s, keep), s)
    decreases |s|
  {
    if s != [] {
      FilterIsSubsequence(s[1..], keep);
      var t := Filter(s, keep);
      if keep(s[0]) {
        assert t[0] == s[0] && t[1..] == Filter(s[1..], keep);
      } else {
        assert t == Filter(s[1..], keep);
      }
    }
  }

  lemma {:induction false} FilterIdempotent(s: string, keep: char -> bool)
    ensures Filter(Filter(s, keep), keep) == Filter(s, keep)
    decreases |s|
  {
    if s != [] {
      FilterIdempotent(s[1..], keep);
      var t := Filter(s, keep);
      if keep(s[0]) {
        assert t == [s[0]] + Filter(s[1..], keep);
        assert t[1..] == Filter(s[1..], keep);
        assert Filter(t, keep) == [s[0]] + Filter(t[1..], keep);
      } else {
        assert t == Filter(s[1..], keep);
      }
    }
  }

  /** `needle` occurs in `hay` starting at index `i`. */
  predicate OccursAt(hay: string, needle: string, i: nat)
  {
    i + |needle| <= |hay| && hay[i..i + |needle|] == needle
  }

  function FindFrom(hay: string, needle: string, i: nat): (r: Option<nat>)
    requires i <= |hay|
    ensures r.Some? ==> i <= r.value && OccursAt(hay, needle, r.value)
    ensures r.Some? ==> forall j :: i <= j < r.value ==> !OccursAt(hay, needle, j)
    ensures r.None? ==> forall j :: i <= j ==> !OccursAt(hay, needle, j)
    decreases |hay| - i
  {
    if OccursAt(hay, needle, i) then Some(i)
    else if i == |hay| then None
    else FindFrom(hay, needle, i + 1)
  }

  /** `hay.find(needle)`, with `None` for Python's `-1`: the first occurrence. */
  function Find(hay: string, needle: string): (r: Option<nat>)
    ensures r.Some? ==> OccursAt(hay, needle, r.value)
    ensures r.Some? ==> forall j: nat :: j < r.value ==> !OccursAt(hay, needle, j)
    ensures r.None? <==> forall j: nat :: !OccursAt(hay, needle, j)
  {
    FindFrom(hay, needle, 0)
  }

  /** `s.find(c)` for one character, with `None` for `-1`. */
  function FindChar(s: string, c: char): (r: Option<nat>)
    ensures r.Some? ==> r.value < |s| && s[r.value] == c && c !in s[..r.value]
    ensures r.None? <==> c !in s
  {
    if s == [] then None
    else if s[0] == c then Some(0)
    else match FindChar(s[1..], c)
      case Some(i) => (assert s[..i + 1] == [s[0]] + s[1..][..i]; Some(i + 1))
      case None => None
  }

  /** Python slicing `s[start:stop]` for non-negative bounds, which clamps to the length. */
  function Slice(s: string, start: nat, stop: nat): (r: string)
    ensures |r| == if start <= stop && start <= |s| then (if stop <= |s| then stop else |s|) - start else 0
    ensures start <= stop <= |s| ==> r == s[start..stop]
  {
    var hi := if stop <= |s| then stop else |s|;
    if start <= hi then s[start..hi] else []
  }

  predicate IsDigit(c: char)
  {
    '0' <= c <= '9'
  }

  predicate AllDigits(s: string)
  {
    forall i :: 0 <= i < |s| ==> IsDigit(s[i])
  }

  function DigitsValue(s: string): (n: nat)
    requires AllDigits(s)
  {
    if s == [] then 0 else DigitsValue(s[..|s| - 1]) * 10 + (s[|s| - 1] as int - '0' as int)
  }

  /** `str(n)` for a natural number. */
  function NatText(n: nat): (r: string)
    ensures |r| > 0
  {
    if n < 10 then ['0' + n as char] else NatText(n / 10) + ['0' + (n % 10) as char]
  }

  /** `str(n)` for an integer. */
  function IntText(n: int): (r: string)
    ensures |r| > 0
  {
    if n < 0 then "-" + NatText(-n) else NatText(n)
  }

  /** Python's `int(s)` on a string: surrounding whitespace, an optional sign, decimal digits. */
  function ParseInt(s: string): (r: Option<int>)
    ensures r.Some? ==> Strip(s) != []
  {
    var t := Strip(s);
    if t == [] then None
    else if t[0] == '-' || t[0] == '+' then
      if |t| > 1 && AllDigits(t[1..]) then
        var v: int := DigitsValue(t[1..]);
        Some(if t[0] == '-' then -v else v)
      else None
    else if AllDigits(t) then Some(DigitsValue(t))
    else None
  }

  /** `str(n)` is a string of decimal digits that reads back as `n`. */
  lemma {:induction false} NatTextValue(n: nat)
    ensures AllDigits(NatText(n)) && DigitsValue(NatText(n)) == n
  {
    if n >= 10 {
      NatTextValue(n / 10);
      var t := NatText(n);
      assert t[..|t| - 1] == NatText(n / 10);
      assert AllDigits(t);
    }
  }

  lemma NatTextInjective(a: nat, b: nat)
    ensures NatText(a) == NatText(b) ==> a == b
  {
    NatTextValue(a);
    NatTextValue(b);
  }

  /** `int(str(n)) == n`. */
  lemma ParseIntText(n: int)
    ensures ParseInt(IntText(n)) == Some(n)
  {
    var t := IntText(n);
    var d := NatText(if n < 0 then -n else n);
    NatTextValue(if n < 0 then -n else n);
    assert IsDigit(t[|t| - 1]);
    StripUnchanged(t);
    if n < 0 {
      assert t[1..] == d;
    }
  }
}
