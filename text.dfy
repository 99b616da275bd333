/**
 * The string operations the engine relies on: Python's `str.lower()` (ASCII
 * letters), substring search (`word in s`), `str.strip()`, deletion of one
 * character (`s.replace(c, "")`), prefixes (`s[:n]`) and decimal rendering of
 * integers (`f"{n}"`).
 */
module Text {

  function LowerChar(c: char): char {
    if 'A' <= c <= 'Z' then (c as int + 32) as char else c
  }

  predicate IsUpper(c: char) {
    'A' <= c <= 'Z'
  }

  function Lower(s: string): string {
    seq(|s|, i requires 0 <= i < |s| => LowerChar(s[i]))
  }

  lemma LowerIdempotent(s: string)
    ensures Lower(Lower(s)) == Lower(s)
  {
  }

  lemma LowerAppend(a: string, b: string)
    ensures Lower(a + b) == Lower(a) + Lower(b)
  {
    assert forall i :: 0 <= i < |a + b| ==> Lower(a + b)[i] == (Lower(a) + Lower(b))[i];
  }

  /** `w` occurs in `s` starting at index `i`. */
  predicate MatchesAt(s: string, w: string, i: int) {
    0 <= i && i + |w| <= |s| && s[i..i + |w|] == w
  }

  /** Python's `w in s` for strings. */
  predicate Contains(s: string, w: string) {
    exists i | 0 <= i <= |s| - |w| :: MatchesAt(s, w, i)
  }

  lemma ContainsAt(s: string, w: string, i: int)
    requires 0 <= i && i + |w| <= |s|
    requires forall k :: 0 <= k < |w| ==> s[i + k] == w[k]
    ensures Contains(s, w)
  {
    assert s[i..i + |w|] == w;
    assert MatchesAt(s, w, i);
  }

  /** Text added on either side never removes an occurrence. */
  lemma ContainsExtend(s: string, w: string, pre: string, post: string)
    requires Contains(s, w)
    ensures Contains(pre + s + post, w)
  {
    var i :| 0 <= i <= |s| - |w| && MatchesAt(s, w, i);
    var t := pre + s + post;
    forall k | 0 <= k < |w| ensures t[|pre| + i + k] == w[k] {
      assert s[i..i + |w|][k] == w[k];
    }
    ContainsAt(t, w, |pre| + i);
  }

  /** No character of `s` equals `c`. */
  predicate Lacks(s: string, c: char) {
    forall i :: 0 <= i < |s| ==> s[i] != c
  }

  /** No two adjacent characters of `s` are `a` followed by `b`. */
  predicate LacksPair(s: string, a: char, b: char) {
    forall i :: 0 <= i < |s| - 1 ==> !(s[i] == a && s[i + 1] == b)
  }

  lemma LacksAppend(s: string, t: string, c: char)
    requires Lacks(s, c) && Lacks(t, c)
    ensures Lacks(s + t, c)
  {
    forall i | 0 <= i < |s + t| ensures (s + t)[i] != c {
      if i >= |s| { assert (s + t)[i] == t[i - |s|]; }
    }
  }

  lemma LacksPairAppend(s: string, t: string, a: char, b: char)
    requires LacksPair(s, a, b) && LacksPair(t, a, b)
    requires s != [] && t != [] ==> !(s[|s| - 1] == a && t[0] == b)
    ensures LacksPair(s + t, a, b)
  {
    forall i | 0 <= i < |s + t| - 1 ensures !((s + t)[i] == a && (s + t)[i + 1] == b) {
      if i >= |s| {
        assert (s + t)[i] == t[i - |s|] && (s + t)[i + 1] == t[i - |s| + 1];
      } else if i == |s| - 1 {
        assert (s + t)[i + 1] == t[0];
      }
    }
  }

  /** A word with a character that `s` lacks does not occur in `s`. */
  lemma AbsentByChar(s: string, w: string, j: nat)
    requires j < |w| && Lacks(s, w[j])
    ensures !Contains(s, w)
  {
    forall i | 0 <= i <= |s| - |w| ensures !MatchesAt(s, w, i) {
      assert s[i..i + |w|][j] == s[i + j];
    }
  }

  /** A word with two adjacent characters that `s` lacks as a pair does not occur in `s`. */
  lemma AbsentByPair(s: string, w: string, j: nat)
    requires j + 1 < |w| && LacksPair(s, w[j], w[j + 1])
    ensures !Contains(s, w)
  {
    forall i | 0 <= i <= |s| - |w| ensures !MatchesAt(s, w, i) {
      assert s[i..i + |w|][j] == s[i + j];
      assert s[i..i + |w|][j + 1] == s[i + j + 1];
    }
  }

  /** Python's `str.isspace()` on one character. */
  predicate IsSpace(c: char) {
    var n := c as int;
    n == 0x20 || 0x09 <= n <= 0x0D || 0x1C <= n <= 0x1F || n == 0x85 || n == 0xA0 || n == 0x1680
    || 0x2000 <= n <= 0x200A || n == 0x2028 || n == 0x2029 || n == 0x202F || n == 0x205F || n == 0x3000
  }

  function TrimStart(s: string): (r: string)
    ensures |r| <= |s|
  {
    if |s| > 0 && IsSpace(s[0]) then TrimStart(s[1..]) else s
  }

  /** `TrimStart` removes exactly the leading run of whitespace. */
  lemma {:induction false} TrimStartFacts(s: string)
    ensures var r := TrimStart(s);
      r == s[|s| - |r|..] && (r == [] || !IsSpace(r[0])) && forall i :: 0 <= i < |s| - |r| ==> IsSpace(s[i])
  {
    if |s| > 0 && IsSpace(s[0]) {
      TrimStartFacts(s[1..]);
      var r := TrimStart(s[1..]);
      forall i | 0 <= i < |s| - |r| ensures IsSpace(s[i]) {
        if i > 0 { assert s[i] == s[1..][i - 1]; }
      }
      assert s[1..][|s[1..]| - |r|..] == s[|s| - |r|..];
    }
  }

  function TrimEnd(s: string): (r: string)
    ensures |r| <= |s|
  {
    if |s| > 0 && IsSpace(s[|s| - 1]) then TrimEnd(s[..|s| - 1]) else s
  }

  /** `TrimEnd` removes exactly the trailing run of whitespace. */
  lemma {:induction false} TrimEndFacts(s: string)
    ensures var r := TrimEnd(s);
      r == s[..|r|] && (r == [] || !IsSpace(r[|r| - 1])) && forall i :: |r| <= i < |s| ==> IsSpace(s[i])
  {
    if |s| > 0 && IsSpace(s[|s| - 1]) {
      TrimEndFacts(s[..|s| - 1]);
      var r := TrimEnd(s[..|s| - 1]);
      forall i | |r| <= i < |s| ensures IsSpace(s[i]) {
        if i < |s| - 1 { assert s[i] == s[..|s| - 1][i]; }
      }
      assert s[..|s| - 1][..|r|] == s[..|r|];
    }
  }

  /** `s` has a character that is not whitespace. */
  predicate HasNonSpace(s: string) {
    exists i :: 0 <= i < |s| && !IsSpace(s[i])
  }

  /** Leading whitespace ends inside `x` when `x` has a non-space character. */
  lemma {:induction false} TrimStartAppend(x: string, y: string)
    requires HasNonSpace(x)
    ensures TrimStart(x + y) == TrimStart(x) + y
  {
    var i :| 0 <= i < |x| && !IsSpace(x[i]);
    assert (x + y)[0] == x[0];
    if IsSpace(x[0]) {
      assert i > 0 && x[1..][i - 1] == x[i];
      assert (x + y)[1..] == x[1..] + y;
      TrimStartAppend(x[1..], y);
    }
  }

  /** Trailing whitespace starts inside `y` when `y` has a non-space character. */
  lemma {:induction false} TrimEndAppend(x: string, y: string)
    requires HasNonSpace(y)
    ensures TrimEnd(x + y) == x + TrimEnd(y)
  {
    var j :| 0 <= j < |y| && !IsSpace(y[j]);
    var n := |x + y|;
    assert (x + y)[n - 1] == y[|y| - 1];
    if IsSpace(y[|y| - 1]) {
      var y' := y[..|y| - 1];
      assert j < |y| - 1 && y'[j] == y[j];
      assert (x + y)[..n - 1] == x + y';
      TrimEndAppend(x, y');
    }
  }

  /** Python's `s.strip()`: whitespace removed from both ends. */
  function Strip(s: string): string {
    TrimEnd(TrimStart(s))
  }

  /** Whatever lies between two parts that each hold a non-space character is kept whole by `Strip`. */
  lemma StripAround(x: string, m: string, y: string)
    requires HasNonSpace(x) && HasNonSpace(y)
    ensures Strip(x + m + y) == TrimStart(x) + m + TrimEnd(y)
  {
    TrimStartAppend(x, m + y);
    assert x + m + y == x + (m + y);
    var p := TrimStart(x);
    assert p + (m + y) == (p + m) + y;
    TrimEndAppend(p + m, y);
  }

  /** Python's `s.replace(c, "")` for a one-character `c`. */
  function Delete(s: string, c: char): (r: string)
    ensures Lacks(r, c)
    ensures |r| <= |s|
    ensures Lacks(s, c) ==> r == s
    ensures forall x :: x != c ==> multiset(r)[x] == multiset(s)[x]
  {
    if s == [] then []
    else
      assert s == [s[0]] + s[1..];
      if s[0] == c then Delete(s[1..], c) else [s[0]] + Delete(s[1..], c)
  }

  /** Deletion works piece by piece: it keeps the order of what it keeps. */
  lemma {:induction false} DeleteAppend(a: string, b: string, c: char)
    ensures Delete(a + b, c) == Delete(a, c) + Delete(b, c)
  {
    if a != [] {
      assert (a + b)[0] == a[0];
      assert (a + b)[1..] == a[1..] + b;
      DeleteAppend(a[1..], b, c);
    } else {
      assert a + b == b;
    }
  }

  /** One character in the middle is dropped if it is `c` and kept in place otherwise. */
  lemma DeleteSplits(a: string, x: char, b: string, c: char)
    ensures Delete(a + [x] + b, c) == Delete(a, c) + (if x == c then [] else [x]) + Delete(b, c)
  {
    DeleteAppend(a + [x], b, c);
    DeleteAppend(a, [x], c);
    assert [x][1..] == [];
  }

  /** Python's `s[:n]`. */
  function Prefix(s: string, n: nat): (r: string)
    ensures |r| <= n && |r| <= |s| && r == s[..|r|]
    ensures |s| <= n ==> r == s
    ensures |s| > n ==> |r| == n
  {
    if |s| <= n then s else s[..n]
  }

  function Digit(d: nat): char
    requires d < 10
  {
    "0123456789"[d]
  }

  function NatToString(n: nat): (r: string)
    ensures |r| >= 1
  {
    if n < 10 then [Digit(n)] else NatToString(n / 10) + [Digit(n % 10)]
  }

  /** Python's `str(n)` for an integer. */
  function IntToString(n: int): string {
    if n < 0 then "-" + NatToString(-n) else NatToString(n)
  }
}
