/** The handful of Python `str` operations the application relies on, written out
    over `seq<char>`. */
module Strings {
  import opened Sequences

  /** Python's `str.isspace()`: the characters `str.strip()` removes and `\s`
      matches. */
  predicate IsSpace(c: char) {
    c == ' ' || ('\t' <= c <= '\r') || ('\U{1C}' <= c <= '\U{1F}') || c == '\U{85}' || c == '\U{A0}'
    || c == '\U{1680}' || ('\U{2000}' <= c <= '\U{200A}') || c == '\U{2028}' || c == '\U{2029}'
    || c == '\U{202F}' || c == '\U{205F}' || c == '\U{3000}'
  }

  /** An ASCII decimal digit. */
  predicate IsDigit(c: char) {
    '0' <= c <= '9'
  }

  predicate IsAsciiLetter(c: char) {
    'a' <= c <= 'z' || 'A' <= c <= 'Z'
  }

  /** `any(ch.isdigit() for ch in s)` */
  predicate HasDigit(s: string) {
    exists i :: 0 <= i < |s| && IsDigit(s[i])
  }

  function TrimStart(s: string): (r: string)
    ensures |r| <= |s| && r == s[|s| - |r|..]
    ensures r != [] ==> !IsSpace(r[0])
    ensures forall i :: 0 <= i < |s| - |r| ==> IsSpace(s[i])
  {
    if s != [] && IsSpace(s[0]) then TrimStart(s[1..]) else s
  }

  function TrimEnd(s: string): (r: string)
    ensures |r| <= |s| && r == s[..|r|]
    ensures r != [] ==> !IsSpace(r[|r| - 1])
    ensures forall i :: |r| <= i < |s| ==> IsSpace(s[i])
  {
    if s != [] && IsSpace(s[|s| - 1]) then TrimEnd(s[..|s| - 1]) else s
  }

  /** `s.strip()`: leading and trailing whitespace removed, nothing else touched. */
  function Strip(s: string): (r: string)
    ensures |r| <= |s|
    ensures r != [] ==> !IsSpace(r[0]) && !IsSpace(r[|r| - 1])
    ensures forall i :: 0 <= i < |r| ==> r[i] in s
    ensures (s == [] || (!IsSpace(s[0]) && !IsSpace(s[|s| - 1]))) ==> r == s
  {
    var t := TrimStart(s);
    var r := TrimEnd(t);
    assert r == s[|s| - |t|..][..|r|];
    r
  }

  /** Lower-casing of one character (ASCII letters only). */
  function LowerChar(c: char): (d: char)
    ensures !('A' <= d <= 'Z')
    ensures IsAsciiLetter(c) <==> IsAsciiLetter(d)
    ensures !IsAsciiLetter(c) ==> d == c
  {
    if 'A' <= c <= 'Z' then (c as int + 32) as char else c
  }

  /** `s.lower()` */
  function Lower(s: string): (r: string)
    ensures |r| == |s|
    ensures forall i :: 0 <= i < |s| ==> r[i] == LowerChar(s[i])
  {
    seq(|s|, i requires 0 <= i < |s| => LowerChar(s[i]))
  }

  lemma LowerIdempotent(s: string)
    ensures Lower(Lower(s)) == Lower(s)
  {
  }

  /** Python's `p in s` for strings: `p` occurs in `s` as a contiguous block. */
  predicate IsSubstring(p: string, s: string)
    decreases |s|
  {
    p <= s || (s != [] && IsSubstring(p, s[1..]))
  }

  lemma {:induction false} SubstringOfEmpty(p: string)
    ensures IsSubstring(p, "") <==> p == ""
  {
  }

  /** A block placed anywhere in a string is found by `in`. */
  lemma {:induction false} SubstringOfConcat(a: string, p: string, b: string)
    ensures IsSubstring(p, a + p + b)
    decreases |a|
  {
    if a == [] {
      assert p <= a + p + b;
    } else {
      assert (a + p + b)[1..] == a[1..] + p + b;
      SubstringOfConcat(a[1..], p, b);
    }
  }

  /** `s.replace(c, '')` for a single character `c`: every other character
      kept, as often as in `s` and in order. */
  function RemoveChar(s: string, c: char): (r: string)
    ensures |r| <= |s|
    ensures c !in r
    ensures forall x :: x in r ==> x in s
    ensures s != [] && s[0] != c ==> r != [] && r[0] == s[0]
    ensures IsSubsequence(r, s)
    ensures forall x :: multiset(r)[x] == if x == c then 0 else multiset(s)[x]
  {
    if s == [] then []
    else
      assert s == [s[0]] + s[1..];
      if s[0] == c then RemoveChar(s[1..], c)
      else [s[0]] + RemoveChar(s[1..], c)
  }

  /** `s.startswith(p)` */
  predicate StartsWith(s: string, p: string) {
    p <= s
  }

  /** `s.endswith(q)` */
  predicate EndsWith(s: string, q: string) {
    |q| <= |s| && s[|s| - |q|..] == q
  }

  /** `sep.join(items)` */
  function Join(items: seq<string>, sep: string): (r: string)
    ensures items == [] ==> r == ""
    ensures |items| == 1 ==> r == items[0]
  {
    if items == [] then ""
    else if |items| == 1 then items[0]
    else items[0] + sep + Join(items[1..], sep)
  }

  /** Each listed item appears in the joined text. */
  lemma {:induction false} JoinContainsItem(items: seq<string>, sep: string, k: nat)
    requires k < |items|
    ensures IsSubstring(items[k], Join(items, sep))
  {
    if |items| == 1 {
      SubstringOfConcat("", items[0], "");
      assert "" + items[0] + "" == items[0];
    } else if k == 0 {
      SubstringOfConcat("", items[0], sep + Join(items[1..], sep));
      assert "" + items[0] + (sep + Join(items[1..], sep)) == Join(items, sep);
    } else {
      JoinContainsItem(items[1..], sep, k - 1);
      SubstringInSuffix(items[k], items[0] + sep, Join(items[1..], sep));
    }
  }

  lemma {:induction false} SubstringInSuffix(p: string, a: string, s: string)
    requires IsSubstring(p, s)
    ensures IsSubstring(p, a + s)
    decreases |a|
  {
    if a == [] {
      assert a + s == s;
    } else {
      assert (a + s)[1..] == a[1..] + s;
      SubstringInSuffix(p, a[1..], s);
    }
  }

  lemma {:induction false} SubstringInPrefix(p: string, s: string, b: string)
    requires IsSubstring(p, s)
    ensures IsSubstring(p, s + b)
    decreases |s|
  {
    if p <= s {
      assert (s + b)[..|p|] == s[..|p|];
    } else {
      assert (s + b)[1..] == s[1..] + b;
      SubstringInPrefix(p, s[1..], b);
    }
  }
}
