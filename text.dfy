/** The string and path operations of the Python standard library that the core
    relies on: str.strip, str.lower, the `in` and endswith tests, string order, and
    os.path.basename / os.path.join on POSIX paths. Strings are sequences of code
    points. */
module Text {

  /** The code points Python 3's str.isspace accepts: U+0009 to U+000D, U+001C to
      U+001F, U+0020, U+0085, U+00A0, U+1680, U+2000 to U+200A, U+2028, U+2029,
      U+202F, U+205F and U+3000. */
  const Whitespace: seq<char> := [
    '\t', '\n', '\U{0b}', '\U{0c}', '\r', '\U{1c}', '\U{1d}', '\U{1e}', '\U{1f}', ' ',
    '\U{85}', '\U{a0}', '\U{1680}',
    '\U{2000}', '\U{2001}', '\U{2002}', '\U{2003}', '\U{2004}', '\U{2005}', '\U{2006}',
    '\U{2007}', '\U{2008}', '\U{2009}', '\U{200a}',
    '\U{2028}', '\U{2029}', '\U{202f}', '\U{205f}', '\U{3000}']

  /** c is one of the code points in chars. */
  predicate OneOf(c: char, chars: seq<char>) {
    chars != [] && (chars[0] == c || OneOf(c, chars[1..]))
  }

  /** str.isspace for one code point. */
  predicate IsSpace(c: char) {
    OneOf(c, Whitespace)
  }

  predicate AllSpace(s: string) {
    forall i :: 0 <= i < |s| ==> IsSpace(s[i])
  }

  /** Neither end of s is whitespace. */
  predicate Trimmed(s: string) {
    s == [] || (!IsSpace(s[0]) && !IsSpace(s[|s| - 1]))
  }

  /** str.lstrip(): s without its leading whitespace. */
  function StripStart(s: string): (r: string)
    ensures |r| <= |s| && r == s[|s| - |r|..]
    ensures AllSpace(s[..|s| - |r|])
    ensures r == [] || !IsSpace(r[0])
  {
    if s != [] && IsSpace(s[0]) then StripStart(s[1..]) else s
  }

  /** str.rstrip(): s without its trailing whitespace. */
  function StripEnd(s: string): (r: string)
    ensures |r| <= |s| && r == s[..|r|]
    ensures AllSpace(s[|r|..])
    ensures r == [] || !IsSpace(r[|r| - 1])
  {
    if s != [] && IsSpace(s[|s| - 1]) then
      var r := StripEnd(s[..|s| - 1]);
      assert s[|r|..] == s[..|s| - 1][|r|..] + [s[|s| - 1]];
      r
    else s
  }

  /** Stripping the end of a string that does not start with whitespace keeps its
      start unless nothing is left. */
  lemma StripEndKeepsStart(s: string)
    requires s == [] || !IsSpace(s[0])
    ensures var r := StripEnd(s); r == [] || r[0] == s[0]
  {}

  /** str.strip(): s without leading and trailing whitespace; neither end of the
      result is whitespace. */
  function Strip(s: string): (r: string)
    ensures Trimmed(r) && |r| <= |s|
  {
    StripEndKeepsStart(StripStart(s));
    StripEnd(StripStart(s))
  }

  /** What strip cuts off: the result is a contiguous part of s, and everything
      before and after it is whitespace. */
  lemma StripCutsOnlyWhitespace(s: string)
    ensures var r := Strip(s);
      exists i :: 0 <= i <= |s| - |r| && r == s[i..i + |r|] && AllSpace(s[..i]) && AllSpace(s[i + |r|..])
  {
    var t := StripStart(s);
    var r := StripEnd(t);
    var i := |s| - |t|;
    assert t == s[i..] && r == t[..|r|];
    assert s[i..i + |r|] == t[..|r|];
    assert s[i + |r|..] == t[|r|..];
    assert AllSpace(s[..i]) && AllSpace(t[|r|..]);
  }

  /** Stripping is idempotent: a stripped string has nothing more to strip. */
  lemma StripIdempotent(s: string)
    ensures Strip(Strip(s)) == Strip(s)
  {
    TrimmedIsFixed(Strip(s));
  }

  lemma TrimmedIsFixed(s: string)
    requires Trimmed(s)
    ensures Strip(s) == s
  {
    assert StripStart(s) == s;
    assert StripEnd(s) == s;
  }

  /** A string of whitespace only strips to the empty string, and only such a
      string does. */
  lemma StripEmptyIffBlank(s: string)
    ensures Strip(s) == "" <==> AllSpace(s)
  {
    if AllSpace(s) {
      BlankStripsStart(s);
    }
  }

  lemma {:induction false} BlankStripsStart(s: string)
    requires AllSpace(s)
    ensures StripStart(s) == ""
  {
    if s != [] {
      assert IsSpace(s[0]);
      BlankStripsStart(s[1..]);
    }
  }

  /** str.lower() for the ASCII letters; other characters are kept. */
  function LowerChar(c: char): char {
    if 'A' <= c <= 'Z' then (c as int + 32) as char else c
  }

  function Lower(s: string): (r: string)
    ensures |r| == |s|
    ensures forall i :: 0 <= i < |s| ==> r[i] == LowerChar(s[i])
  {
    if s == [] then [] else [LowerChar(s[0])] + Lower(s[1..])
  }

  /** Lowering twice changes nothing more. */
  lemma LowerIdempotent(s: string)
    ensures Lower(Lower(s)) == Lower(s)
  {
    assert forall i :: 0 <= i < |s| ==> LowerChar(LowerChar(s[i])) == LowerChar(s[i]);
  }

  /** Lowering a concatenation lowers each part. */
  lemma {:induction false} LowerAppend(a: string, b: string)
    ensures Lower(a + b) == Lower(a) + Lower(b)
  {
    if a == [] {
      assert a + b == b;
    } else {
      assert (a + b)[1..] == a[1..] + b;
      LowerAppend(a[1..], b);
    }
  }

  /** `needle in haystack` for strings: needle occurs as a contiguous part. */
  predicate Contains(haystack: string, needle: string) {
    exists i :: 0 <= i <= |haystack| - |needle| && OccursAt(haystack, needle, i)
  }

  predicate OccursAt(haystack: string, needle: string, i: int) {
    0 <= i <= |haystack| - |needle| && haystack[i..i + |needle|] == needle
  }

  /** str.endswith. */
  predicate EndsWith(s: string, suffix: string) {
    |suffix| <= |s| && s[|s| - |suffix|..] == suffix
  }

  /** The index just after the last '/', or 0 when there is none. */
  function AfterLastSlash(p: string): (k: nat)
    ensures k <= |p|
    ensures k > 0 ==> p[k - 1] == '/'
    ensures forall j :: k <= j < |p| ==> p[j] != '/'
  {
    if p == [] then 0
    else if p[|p| - 1] == '/' then |p|
    else AfterLastSlash(p[..|p| - 1])
  }

  /** os.path.basename: the part after the last slash. */
  function Basename(p: string): (r: string)
    ensures EndsWith(p, r)
    ensures forall j :: 0 <= j < |r| ==> r[j] != '/'
    ensures |r| < |p| ==> p[|p| - |r| - 1] == '/'
  {
    p[AfterLastSlash(p)..]
  }

  /** Taking the base name commutes with lowering, since lowering keeps '/'. */
  lemma BasenameLower(p: string)
    ensures Basename(Lower(p)) == Lower(Basename(p))
  {
    var k := AfterLastSlash(p);
    var lp := Lower(p);
    assert forall j :: 0 <= j < |p| ==> (lp[j] == '/' <==> p[j] == '/');
    AfterLastSlashIs(lp, k);
    assert lp[k..] == Lower(p[k..]);
  }

  /** os.path.join(a, b) on POSIX: b when it is absolute, otherwise b appended to a
      with one '/' added unless a is empty or already ends with '/'. */
  function Join(a: string, b: string): string {
    if b != [] && b[0] == '/' then b
    else if a == [] || a[|a| - 1] == '/' then a + b
    else a + "/" + b
  }

  /** An absolute second part replaces the first; otherwise the join starts with
      the directory and ends with the second part. */
  lemma JoinParts(a: string, b: string)
    ensures b != [] && b[0] == '/' ==> Join(a, b) == b
    ensures (b == [] || b[0] != '/') ==> EndsWith(Join(a, b), b) && |Join(a, b)| >= |a| && Join(a, b)[..|a|] == a
  {}

  /** Joining a directory and a plain file name gives a path whose base name is the
      file name. */
  lemma JoinBasename(a: string, b: string)
    requires forall j :: 0 <= j < |b| ==> b[j] != '/'
    requires b != []
    ensures Basename(Join(a, b)) == b
  {
    var r := Join(a, b);
    JoinParts(a, b);
    var k := |r| - |b|;
    assert r[k..] == b;
    assert k > 0 ==> r[k - 1] == '/';
    AfterLastSlashIs(r, k);
  }

  /** The last slash is found where the slash-free tail starts. */
  lemma {:induction false} AfterLastSlashIs(p: string, k: nat)
    requires k <= |p| && (k > 0 ==> p[k - 1] == '/')
    requires forall j :: k <= j < |p| ==> p[j] != '/'
    ensures AfterLastSlash(p) == k
  {
    if p != [] && p[|p| - 1] != '/' {
      var q := p[..|p| - 1];
      assert k < |p|;
      AfterLastSlashIs(q, k);
    }
  }

  /** Python's string order: code point by code point, a proper prefix first. */
  predicate LexLE(a: string, b: string)
  {
    if a == [] then true
    else if b == [] then false
    else if a[0] != b[0] then a[0] < b[0]
    else LexLE(a[1..], b[1..])
  }

  lemma {:induction false} LexTotal(a: string, b: string)
    ensures LexLE(a, b) || LexLE(b, a)
  {
    if a != [] && b != [] && a[0] == b[0] {
      LexTotal(a[1..], b[1..]);
    }
  }

  lemma {:induction false} LexTransitive(a: string, b: string, c: string)
    requires LexLE(a, b) && LexLE(b, c)
    ensures LexLE(a, c)
  {
    if a != [] && b != [] && c != [] && a[0] == b[0] && b[0] == c[0] {
      LexTransitive(a[1..], b[1..], c[1..]);
    }
  }

  /** Two strings ordered both ways are equal. */
  lemma {:induction false} LexAntisymmetric(a: string, b: string)
    requires LexLE(a, b) && LexLE(b, a)
    ensures a == b
  {
    if a != [] && b != [] {
      LexAntisymmetric(a[1..], b[1..]);
    }
  }
}
