/**
 * The Python string operations the pipeline relies on: `str.join`,
 * `str.strip()`, slicing `s[:n]` and `str.lower()`.
 */
module Text {

  /** `sep.join(parts)`. */
  function Join(sep: string, parts: seq<string>): string
  {
    if |parts| == 0 then ""
    else if |parts| == 1 then parts[0]
    else Join(sep, parts[..|parts| - 1]) + sep + parts[|parts| - 1]
  }

  /** Where `parts[i]` starts inside `Join(sep, parts)`. */
  function Offset(sep: string, parts: seq<string>, i: nat): nat
    requires i <= |parts|
  {
    if i == 0 then 0 else Offset(sep, parts, i - 1) + |parts[i - 1]| + |sep|
  }

  lemma {:induction false} OffsetPrefix(sep: string, parts: seq<string>, k: nat, i: nat)
    requires i <= k <= |parts|
    ensures Offset(sep, parts[..k], i) == Offset(sep, parts, i)
  {
    if i > 0 {
      OffsetPrefix(sep, parts, k, i - 1);
    }
  }

  /** Offsets grow by at least the part and one separator. */
  lemma {:induction false} OffsetGrows(sep: string, parts: seq<string>, a: nat, b: nat)
    requires a < b <= |parts|
    ensures Offset(sep, parts, a) + |parts[a]| + |sep| <= Offset(sep, parts, b)
  {
    if a + 1 < b {
      OffsetGrows(sep, parts, a, b - 1);
    }
  }

  /** The length of a join: every part plus one separator between neighbours. */
  lemma {:induction false} JoinLength(sep: string, parts: seq<string>)
    requires parts != []
    ensures |Join(sep, parts)| + |sep| == Offset(sep, parts, |parts|)
  {
    if |parts| > 1 {
      var init := parts[..|parts| - 1];
      JoinLength(sep, init);
      OffsetPrefix(sep, parts, |parts| - 1, |parts| - 1);
    }
  }

  /** Slicing inside the left operand of a concatenation. */
  lemma SliceLeft(x: string, y: string, a: nat, b: nat)
    requires a <= b <= |x|
    ensures (x + y)[a..b] == x[a..b]
  {
  }

  /**
   * A join holds the parts in order: part `i` sits at `Offset(sep, parts, i)`.
   */
  lemma {:induction false} JoinPart(sep: string, parts: seq<string>, i: nat)
    requires i < |parts|
    ensures Offset(sep, parts, i) + |parts[i]| <= |Join(sep, parts)|
    ensures Join(sep, parts)[Offset(sep, parts, i)..Offset(sep, parts, i) + |parts[i]|] == parts[i]
  {
    JoinLength(sep, parts);
    OffsetGrows(sep, parts, i, |parts|);
    if |parts| > 1 {
      var n := |parts| - 1;
      var init := parts[..n];
      var j := Join(sep, init);
      JoinLength(sep, init);
      OffsetPrefix(sep, parts, n, n);
      var o := Offset(sep, parts, i);
      if i < n {
        JoinPart(sep, init, i);
        OffsetPrefix(sep, parts, n, i);
        SliceLeft(j, sep + parts[n], o, o + |parts[i]|);
        assert j + sep + parts[n] == j + (sep + parts[n]);
      } else {
        assert o == |j| + |sep|;
        assert (j + sep + parts[n])[o..] == parts[n];
      }
    }
  }

  /** Between two neighbouring parts of a join there is exactly `sep`. */
  lemma {:induction false} JoinSeparator(sep: string, parts: seq<string>, i: nat)
    requires i + 1 < |parts|
    ensures Offset(sep, parts, i) + |parts[i]| + |sep| == Offset(sep, parts, i + 1) <= |Join(sep, parts)|
    ensures Join(sep, parts)[Offset(sep, parts, i) + |parts[i]|..Offset(sep, parts, i + 1)] == sep
  {
    var n := |parts| - 1;
    var init := parts[..n];
    var j := Join(sep, init);
    JoinLength(sep, init);
    OffsetPrefix(sep, parts, n, n);
    OffsetPrefix(sep, parts, n, i + 1);
    OffsetPrefix(sep, parts, n, i);
    var o := Offset(sep, parts, i) + |parts[i]|;
    if i + 1 < n {
      JoinSeparator(sep, init, i);
      SliceLeft(j, sep + parts[n], o, o + |sep|);
      assert j + sep + parts[n] == j + (sep + parts[n]);
    } else {
      assert o == |j|;
      assert (j + sep + parts[n])[o..o + |sep|] == sep;
    }
  }

  /** Joining one more part appends the separator and that part. */
  lemma JoinSnoc(sep: string, parts: seq<string>, last: string)
    requires parts != []
    ensures Join(sep, parts + [last]) == Join(sep, parts) + sep + last
  {
    assert (parts + [last])[..|parts|] == parts;
  }

  /** The characters Python's `str.isspace()` accepts (and `strip()` removes). */
  predicate IsSpace(c: char) {
    c == '\t' || c == '\n' || c == '\U{000B}' || c == '\U{000C}' || c == '\r'
    || ('\U{001C}' <= c <= '\U{001F}') || c == ' ' || c == '\U{0085}' || c == '\U{00A0}'
    || c == '\U{1680}' || ('\U{2000}' <= c <= '\U{200A}') || c == '\U{2028}' || c == '\U{2029}'
    || c == '\U{202F}' || c == '\U{205F}' || c == '\U{3000}'
  }

  predicate AllSpace(s: string) {
    forall k :: 0 <= k < |s| ==> IsSpace(s[k])
  }

  /** `s.lstrip()`: the number of leading whitespace characters. */
  function LeadingSpace(s: string): (n: nat)
    ensures n <= |s|
    ensures AllSpace(s[..n])
    ensures n < |s| ==> !IsSpace(s[n])
  {
    if s != [] && IsSpace(s[0]) then 1 + LeadingSpace(s[1..]) else 0
  }

  /** The number of trailing whitespace characters. */
  function TrailingSpace(s: string): (n: nat)
    ensures n <= |s|
    ensures AllSpace(s[|s| - n..])
    ensures n < |s| ==> !IsSpace(s[|s| - n - 1])
  {
    if s != [] && IsSpace(s[|s| - 1]) then 1 + TrailingSpace(s[..|s| - 1]) else 0
  }

  /** `s.strip()`: `s` without its leading and trailing whitespace. */
  function Strip(s: string): (r: string)
    ensures |r| <= |s|
    ensures r == "" || (!IsSpace(r[0]) && !IsSpace(r[|r| - 1]))
  {
    var t := s[LeadingSpace(s)..];
    t[..|t| - TrailingSpace(t)]
  }

  /**
   * `Strip(s)` is the contiguous middle of `s` left after removing a
   * whitespace-only prefix and a whitespace-only suffix.
   */
  lemma StripInfix(s: string)
    ensures exists i, j ::
      (0 <= i <= j <= |s| && Strip(s) == s[i..j] && AllSpace(s[..i]) && AllSpace(s[j..]))
  {
    var i := LeadingSpace(s);
    var t := s[i..];
    var j := i + |t| - TrailingSpace(t);
    assert t[..|t| - TrailingSpace(t)] == s[i..j];
    assert t[|t| - TrailingSpace(t)..] == s[j..];
    assert 0 <= i <= j <= |s| && Strip(s) == s[i..j] && AllSpace(s[..i]) && AllSpace(s[j..]);
  }

  /** Stripping twice is stripping once. */
  lemma StripIdempotent(s: string)
    ensures Strip(Strip(s)) == Strip(s)
  {
    var r := Strip(s);
    if r != "" {
      assert LeadingSpace(r) == 0;
      assert TrailingSpace(r) == 0;
      assert r[0..] == r;
    }
  }

  /** A string with no surrounding whitespace is left as it is. */
  lemma StripUnpadded(s: string)
    requires s == "" || (!IsSpace(s[0]) && !IsSpace(s[|s| - 1]))
    ensures Strip(s) == s
  {
    assert s[0..] == s;
  }

  /** `s[:n]` for a non-negative `n`. */
  function Take(s: string, n: nat): (r: string)
    ensures |r| == if |s| < n then |s| else n
    ensures r == s[..|r|]
  {
    if |s| <= n then s else s[..n]
  }

  function LowerChar(c: char): (d: char)
    ensures 'A' <= c <= 'Z' ==> 'a' <= d <= 'z'
    ensures !('A' <= c <= 'Z') ==> d == c
  {
    if 'A' <= c <= 'Z' then (c as int - 'A' as int + 'a' as int) as char else c
  }

  /** `s.lower()` on the ASCII letters; every other character is kept. */
  function Lower(s: string): (r: string)
    ensures |r| == |s|
    ensures forall k :: 0 <= k < |s| ==> r[k] == LowerChar(s[k])
  {
    seq(|s|, k requires 0 <= k < |s| => LowerChar(s[k]))
  }

  /** Lower-casing commutes with taking a suffix. */
  lemma LowerSlice(s: string, i: nat)
    requires i <= |s|
    ensures Lower(s[i..]) == Lower(s)[i..]
  {
    var a, b := Lower(s[i..]), Lower(s)[i..];
    forall k | 0 <= k < |a|
      ensures a[k] == b[k]
    {
      assert s[i..][k] == s[i + k];
    }
  }
}
