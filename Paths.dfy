/**
 * The `os.path` operations the texture loader uses, following the POSIX
 * rules of `posixpath` with the platform separator `sep`.
 */
module Paths {
  import opened Strings

  /**
   * `s.replace('\\', sep).replace('/', sep)`: both kinds of slash become
   * the platform separator and every other character is kept.
   */
  function NormalizeSeps(s: string, sep: char): (r: string)
    ensures |r| == |s|
    ensures forall i :: 0 <= i < |s| ==> r[i] == if s[i] == '\\' || s[i] == '/' then sep else s[i]
  {
    ReplaceChar(ReplaceChar(s, '\\', sep), '/', sep)
  }

  /** Normalising twice is normalising once, for either platform separator. */
  lemma NormalizeSepsIdempotent(s: string, sep: char)
    requires sep == '/' || sep == '\\'
    ensures NormalizeSeps(NormalizeSeps(s, sep), sep) == NormalizeSeps(s, sep)
  {
    var once := NormalizeSeps(s, sep);
    var twice := NormalizeSeps(once, sep);
    assert forall i :: 0 <= i < |s| ==> twice[i] == once[i];
  }

  /** `s[:n]` with Python's clamping of an index past the end. */
  function Prefix(s: string, n: nat): (r: string)
    ensures |r| == if n <= |s| then n else |s|
    ensures r <= s
  {
    if n <= |s| then s[..n] else s
  }

  /** `s[-n:]` for `n > 0`, with Python's clamping. */
  function Suffix(s: string, n: nat): (r: string)
    ensures |r| == if n <= |s| then n else |s|
    ensures r == s[|s| - |r|..]
  {
    if n <= |s| then s[|s| - n..] else s
  }

  predicate StartsWith(s: string, p: string) { |p| <= |s| && s[..|p|] == p }

  predicate EndsWith(s: string, p: string) { |p| <= |s| && s[|s| - |p|..] == p }

  /** `s.rfind(c)`: the last index holding `c`, or -1. */
  function RFind(s: string, c: char): (r: int)
    ensures -1 <= r < |s|
    ensures r >= 0 ==> s[r] == c
    ensures forall j :: r < j < |s| ==> s[j] != c
  {
    if s == [] then -1
    else if s[|s| - 1] == c then |s| - 1
    else RFind(s[..|s| - 1], c)
  }

  function StripTrailing(s: string, c: char): (r: string)
    ensures r <= s
  {
    if s != [] && s[|s| - 1] == c then StripTrailing(s[..|s| - 1], c) else s
  }

  predicate AllChar(s: string, c: char) { forall i :: 0 <= i < |s| ==> s[i] == c }

  /** `os.path.dirname(p)`. */
  function Dirname(p: string, sep: char): string {
    var head := p[..RFind(p, sep) + 1];
    if head != [] && !AllChar(head, sep) then StripTrailing(head, sep) else head
  }

  /** `os.path.basename(p)`: everything after the last separator. */
  function Basename(p: string, sep: char): (r: string)
    ensures EndsWith(p, r) && sep !in r
    ensures |r| == |p| || p[|p| - |r| - 1] == sep
  {
    var i := RFind(p, sep) + 1;
    assert forall j :: 0 <= j < |p[i..]| ==> p[i..][j] == p[i + j];
    p[i..]
  }

  /** `os.path.join(a, b)`: an absolute `b` wins; otherwise one separator joins the two. */
  function Join(a: string, b: string, sep: char): (r: string)
    ensures StartsWith(b, [sep]) ==> r == b
    ensures !StartsWith(b, [sep]) ==> StartsWith(r, a) && EndsWith(r, b)
    ensures !StartsWith(b, [sep]) && (a == [] || EndsWith(a, [sep])) ==> r == a + b
    ensures !StartsWith(b, [sep]) && a != [] && !EndsWith(a, [sep]) ==> r == a + [sep] + b
  {
    if StartsWith(b, [sep]) then b
    else if a == [] || EndsWith(a, [sep]) then a + b
    else a + [sep] + b
  }

  /** Joining to the same directory keeps names apart that start alike. */
  lemma JoinInjective(a: string, b1: string, b2: string, sep: char)
    requires b1 != [] && b2 != [] && b1[0] == b2[0]
    requires Join(a, b1, sep) == Join(a, b2, sep)
    ensures b1 == b2
  {
    var r := Join(a, b1, sep);
    if !StartsWith(b1, [sep]) {
      assert !StartsWith(b2, [sep]);
      var k := if a == [] || EndsWith(a, [sep]) then |a| else |a| + 1;
      assert b1 == r[k..] == b2;
    }
  }
}
