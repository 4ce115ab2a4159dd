/**
 * The Python string built-ins the core relies on: `in`, `str.find`,
 * `str.startswith`, `str.strip`, slicing with negative indices, `s[:n]`,
 * integer formatting and `"\n".join`.
 */
module Text {

  /** `pat` occurs in `s` starting at index `k`. */
  predicate OccursAt(s: string, pat: string, k: int)
  {
    0 <= k && k + |pat| <= |s| && s[k..k + |pat|] == pat
  }

  /**
   * Python's `s.find(pat, start)`: the first index at or after `start` where
   * `pat` occurs, or -1 when there is none.
   */
  function Find(s: string, pat: string, start: nat): (r: int)
    ensures r == -1 || (start <= r && OccursAt(s, pat, r))
    ensures forall k :: start <= k && (r == -1 || k < r) ==> !OccursAt(s, pat, k)
    decreases |s| - start
  {
    if start + |pat| > |s| then
      -1
    else if s[start..start + |pat|] == pat then
      start
    else
      Find(s, pat, start + 1)
  }

  /** Text appended after a found occurrence does not change where `find` finds it. */
  lemma {:induction false} FindExtend(p: string, q: string, pat: string, start: nat)
    requires Find(p, pat, start) >= 0
    ensures Find(p + q, pat, start) == Find(p, pat, start)
    decreases |p| - start
  {
    assert (p + q)[start..start + |pat|] == p[start..start + |pat|];
    if p[start..start + |pat|] != pat {
      FindExtend(p, q, pat, start + 1);
    }
  }

  /** Searching `x + y` from inside `y` is searching `y`, shifted by `|x|`. */
  lemma {:induction false} FindShift(x: string, y: string, pat: string, start: nat)
    ensures Find(x + y, pat, |x| + start)
         == if Find(y, pat, start) < 0 then -1 else |x| + Find(y, pat, start)
    decreases |y| - start
  {
    if start + |pat| <= |y| {
      assert (x + y)[|x| + start..|x| + start + |pat|] == y[start..start + |pat|];
      if y[start..start + |pat|] != pat {
        FindShift(x, y, pat, start + 1);
      }
    }
  }

  /** Python's `pat in s`. */
  predicate Contains(s: string, pat: string)
  {
    Find(s, pat, 0) >= 0
  }

  /** `Contains` holds exactly when some occurrence exists. */
  lemma ContainsIff(s: string, pat: string)
    ensures Contains(s, pat) <==> exists k :: OccursAt(s, pat, k)
  {
  }

  /** A string that contains a nonempty `pat` contains its first character. */
  lemma ContainsInitial(s: string, pat: string)
    ensures |pat| > 0 && Contains(s, pat) ==> pat[0] in s
  {
    var r := Find(s, pat, 0);
    assert |pat| > 0 && r >= 0 ==> s[r] == s[r..r + |pat|][0] == pat[0];
  }

  /** Python's `s.startswith(p)`. */
  predicate StartsWith(s: string, p: string)
  {
    |p| <= |s| && s[..|p|] == p
  }

  /** The characters for which Python's `str.isspace()` holds, i.e. those `str.strip()` removes. */
  predicate IsSpace(c: char)
  {
    || ('\t' <= c <= '\r')
    || ('\U{1c}' <= c <= ' ')
    || c == '\U{85}' || c == '\U{a0}' || c == '\U{1680}'
    || ('\U{2000}' <= c <= '\U{200a}')
    || c == '\U{2028}' || c == '\U{2029}' || c == '\U{202f}' || c == '\U{205f}' || c == '\U{3000}'
  }

  /** Python's `s.lstrip()`. */
  function StripStart(s: string): (r: string)
    ensures |r| <= |s| && r == s[|s| - |r|..]
    ensures forall k :: 0 <= k < |s| - |r| ==> IsSpace(s[k])
    ensures r == [] || !IsSpace(r[0])
  {
    if s != [] && IsSpace(s[0]) then StripStart(s[1..]) else s
  }

  /** Python's `s.rstrip()`. */
  function StripEnd(s: string): (r: string)
    ensures |r| <= |s| && r == s[..|r|]
    ensures forall k :: |r| <= k < |s| ==> IsSpace(s[k])
    ensures r == [] || !IsSpace(r[|r| - 1])
  {
    if s != [] && IsSpace(s[|s| - 1]) then StripEnd(s[..|s| - 1]) else s
  }

  /** Python's `s.strip()`: never longer, and no white space left at either end. */
  function Strip(s: string): (r: string)
    ensures |r| <= |s|
    ensures r == [] || (!IsSpace(r[0]) && !IsSpace(r[|r| - 1]))
  {
    StripEnd(StripStart(s))
  }

  /** `lstrip()` of a string that is all white space is empty. */
  lemma {:induction false} StripStartAllSpace(s: string)
    requires forall k :: 0 <= k < |s| ==> IsSpace(s[k])
    ensures StripStart(s) == []
    decreases |s|
  {
    if s != [] {
      StripStartAllSpace(s[1..]);
    }
  }

  /** `strip()` leaves nothing exactly when the string is all white space. */
  lemma StripEmpty(s: string)
    ensures Strip(s) == [] <==> forall k :: 0 <= k < |s| ==> IsSpace(s[k])
  {
    if forall k :: 0 <= k < |s| ==> IsSpace(s[k]) {
      StripStartAllSpace(s);
    }
  }

  /** A string with no surrounding white space is its own `strip()`. */
  lemma StripTrimmed(s: string)
    requires s == [] || (!IsSpace(s[0]) && !IsSpace(s[|s| - 1]))
    ensures Strip(s) == s
  {
  }

  /** Python's normalisation of one slice bound: negative counts from the end, then clamp. */
  function SliceBound(i: int, n: nat): (r: nat)
    ensures r <= n
    ensures 0 <= i <= n ==> r == i
    ensures i > n ==> r == n
    ensures i < 0 && 0 <= i + n ==> r == n + i
    ensures i + n < 0 ==> r == 0
  {
    if i < 0 then (if i + n < 0 then 0 else i + n) else if i > n then n else i
  }

  /** Python's `s[a:b]` for any integers `a` and `b`. */
  function PySlice(s: string, a: int, b: int): (r: string)
    ensures |r| <= |s|
  {
    var lo, hi := SliceBound(a, |s|), SliceBound(b, |s|);
    if lo < hi then s[lo..hi] else []
  }

  /**
   * What `s[a:b]` holds: the characters from the normalised start up to the
   * normalised end, or nothing when those cross; in particular a negative end
   * counts from the end of the string.
   */
  lemma PySliceIs(s: string, a: int, b: int)
    ensures var lo, hi := SliceBound(a, |s|), SliceBound(b, |s|);
            PySlice(s, a, b) == s[lo..if lo < hi then hi else lo]
    ensures 0 <= a <= b <= |s| ==> PySlice(s, a, b) == s[a..b]
    ensures 0 <= a && b < 0 && a <= |s| + b ==> PySlice(s, a, b) == s[a..|s| + b]
    ensures 0 <= b <= a ==> PySlice(s, a, b) == []
    ensures 0 <= a && b < 0 && a > |s| + b ==> PySlice(s, a, b) == []
  {
  }

  /** The second part of a concatenation, sliced back out. */
  lemma SliceSecond(x: string, y: string, z: string, w: string)
    ensures (x + y + z + w)[|x|..|x| + |y|] == y
  {
    assert (x + y + z + w)[|x|..|x| + |y|] == (x + y)[|x|..];
  }

  /** A `pat` that ends `y + z` at `|y|` is found after `x` at `|x| + |y|`. */
  lemma FindInside(x: string, y: string, z: string, pat: string)
    requires Find(y + z, pat, 0) == |y|
    ensures Find(x + y + z, pat, |x|) == |x| + |y|
  {
    FindShift(x, y + z, pat, 0);
    assert x + y + z == x + (y + z);
  }

  /** `(x + y)[len(x):-1]`: `y` without its last character. */
  lemma SliceDropLast(x: string, y: string)
    ensures PySlice(x + y, |x|, -1) == if y == [] then [] else y[..|y| - 1]
  {
    PySliceIs(x + y, |x|, -1);
    if y != [] {
      assert (x + y)[|x|..|x + y| - 1] == y[..|y| - 1];
    }
  }

  /**
   * On `pre + open + body + close + post`, when the first `open` is the one
   * after `pre` and the first `close` after it the one after `body`, both
   * `find` calls land there and the slice between them is exactly `body`.
   */
  lemma SliceBetween(pre: string, open: string, body: string, close: string, post: string)
    requires Find(pre + open, open, 0) == |pre|
    requires Find(body + close, close, 0) == |body|
    ensures var raw, start := pre + open + body + close + post, |pre| + |open|;
            && Find(raw, open, 0) == |pre|
            && Find(raw, close, start) == start + |body|
            && PySlice(raw, start, start + |body|) == body
  {
    var head := pre + open;
    FindExtend(head, body, open, 0);
    FindExtend(head + body, close, open, 0);
    FindExtend(head + body + close, post, open, 0);
    FindInside(head, body, close, close);
    FindExtend(head + body + close, post, close, |head|);
    var raw := head + body + close + post;
    PySliceIs(raw, |head|, |head| + |body|);
    SliceSecond(head, body, close, post);
  }

  /** Python's `s[:n]` for `n >= 0`. */
  function Take<T>(s: seq<T>, n: nat): (r: seq<T>)
    ensures |r| == if |s| < n then |s| else n
    ensures r == s[..|r|]
  {
    if |s| <= n then s else s[..n]
  }

  /** The decimal digits of a natural number, as Python's `str(n)` prints them. */
  function NatToString(n: nat): (r: string)
    ensures |r| > 0
    ensures forall k :: 0 <= k < |r| ==> '0' <= r[k] <= '9'
    ensures r[0] == '0' ==> n == 0
    decreases n
  {
    var d := ['0' + (n % 10) as char];
    if n < 10 then d else NatToString(n / 10) + d
  }

  /** Python's `str(i)` / `f"{i}"` for an integer. */
  function IntToString(i: int): string
  {
    if i < 0 then "-" + NatToString(-i) else NatToString(i)
  }

  /** The number a string of decimal digits denotes, most significant digit first. */
  function DigitsValue(s: string): nat
    requires forall k :: 0 <= k < |s| ==> '0' <= s[k] <= '9'
  {
    if s == [] then 0 else DigitsValue(s[..|s| - 1]) * 10 + (s[|s| - 1] - '0') as int
  }

  /** `str(n)` reads back as `n`. */
  lemma {:induction false} NatToStringValue(n: nat)
    ensures DigitsValue(NatToString(n)) == n
    decreases n
  {
    if n >= 10 {
      NatToStringValue(n / 10);
      var r := NatToString(n);
      assert r[..|r| - 1] == NatToString(n / 10);
    }
  }

  /** Distinct numbers print differently. */
  lemma NatToStringInjective(m: nat, n: nat)
    ensures NatToString(m) == NatToString(n) ==> m == n
  {
    NatToStringValue(m);
    NatToStringValue(n);
  }

  /** `str(i)`: the digits of `|i|`, after a minus sign exactly when `i` is negative. */
  lemma IntToStringValue(i: int)
    ensures var r := IntToString(i);
            && |r| > 0
            && (r[0] == '-' <==> i < 0)
            && (i >= 0 ==> DigitsValue(r) == i)
            && (i < 0 ==> |r| > 1 && DigitsValue(r[1..]) == -i)
  {
    if i < 0 {
      NatToStringValue(-i);
      assert IntToString(i)[1..] == NatToString(-i);
    } else {
      NatToStringValue(i);
    }
  }

  /** The total length of some strings. */
  function TotalLength(parts: seq<string>): nat
  {
    if parts == [] then 0 else |parts[0]| + TotalLength(parts[1..])
  }

  /** Python's `"\n".join(parts)`: the parts with one newline between each two. */
  function JoinLines(parts: seq<string>): (r: string)
    ensures |r| == if parts == [] then 0 else TotalLength(parts) + |parts| - 1
  {
    if parts == [] then ""
    else if |parts| == 1 then parts[0]
    else parts[0] + "\n" + JoinLines(parts[1..])
  }

  /**
   * The joined text starts with the first part, followed by a newline when
   * more parts follow, and ends with the last part.
   */
  lemma {:induction false} JoinLinesEnds(parts: seq<string>)
    requires parts != []
    ensures var r := JoinLines(parts);
            && |parts[0]| <= |r| && r[..|parts[0]|] == parts[0]
            && (|parts| > 1 ==> |parts[0]| < |r| && r[|parts[0]|] == '\n')
            && |parts[|parts| - 1]| <= |r| && r[|r| - |parts[|parts| - 1]|..] == parts[|parts| - 1]
    decreases |parts|
  {
    if |parts| > 1 {
      JoinLinesEnds(parts[1..]);
      var rest := JoinLines(parts[1..]);
      assert JoinLines(parts) == parts[0] + "\n" + rest;
      assert parts[1..][|parts[1..]| - 1] == parts[|parts| - 1];
    }
  }
}
