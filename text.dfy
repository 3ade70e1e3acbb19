/**
 * The few Kotlin string operations the authenticator relies on:
 * `trim()`, `contains(...)` and `split(",")`, plus the prefix-up-to-a-character
 * helpers that query-string lookup is built from.
 */
module Text {

  /**
   * Kotlin's `Char.isWhitespace()` on the JVM: `Character.isWhitespace(c) ||
   * Character.isSpaceChar(c)`, i.e. the control characters U+0009..U+000D and
   * U+001C..U+001F plus every space, line and paragraph separator.
   */
  predicate IsWhitespace(c: char) {
    || ('\t' <= c <= '\r')
    || ('\U{1C}' <= c <= '\U{1F}')
    || c == ' '
    || c == '\U{A0}'
    || c == '\U{1680}'
    || ('\U{2000}' <= c <= '\U{200A}')
    || c == '\U{2028}'
    || c == '\U{2029}'
    || c == '\U{202F}'
    || c == '\U{205F}'
    || c == '\U{3000}'
  }

  /** Every character of `s` is whitespace (vacuously so for the empty string). */
  ghost predicate AllWhitespace(s: string) {
    forall k :: 0 <= k < |s| ==> IsWhitespace(s[k])
  }

  /** Length of the longest all-whitespace prefix of `s`. */
  function LeadingWhitespace(s: string): (n: nat)
    ensures n <= |s|
    ensures forall k :: 0 <= k < n ==> IsWhitespace(s[k])
    ensures n < |s| ==> !IsWhitespace(s[n])
  {
    if |s| == 0 || !IsWhitespace(s[0]) then 0 else 1 + LeadingWhitespace(s[1..])
  }

  /** Length of the longest all-whitespace suffix of `s`. */
  function TrailingWhitespace(s: string): (n: nat)
    ensures n <= |s|
    ensures forall k :: |s| - n <= k < |s| ==> IsWhitespace(s[k])
    ensures n < |s| ==> !IsWhitespace(s[|s| - 1 - n])
  {
    if |s| == 0 || !IsWhitespace(s[|s| - 1]) then 0 else 1 + TrailingWhitespace(s[..|s| - 1])
  }

  /**
   * Kotlin's `String.trim()`: `s` without its leading and trailing whitespace.
   * The result is empty exactly when `s` is all whitespace; otherwise it is the
   * slice of `s` that starts and ends with a non-whitespace character.
   */
  function Trim(s: string): (t: string)
    ensures t == [] <==> AllWhitespace(s)
    ensures t != [] ==> !IsWhitespace(t[0]) && !IsWhitespace(t[|t| - 1])
    ensures Contains(s, t)
    ensures exists p, q :: AllWhitespace(p) && AllWhitespace(q) && s == p + t + q
  {
    var lead := LeadingWhitespace(s);
    if lead == |s| then
      assert AllWhitespace(s) && AllWhitespace([]) && s == s + [] + [];
      []
    else
      var stop := |s| - TrailingWhitespace(s);
      ContainsAt(s, lead, s[lead..stop]);
      assert s == s[..lead] + s[lead..stop] + s[stop..];
      assert AllWhitespace(s[..lead]) && AllWhitespace(s[stop..]);
      s[lead..stop]
  }

  /**
   * `trim()` is the only way to strip whitespace from both ends: any core
   * that starts and ends with a non-whitespace character and is surrounded
   * by whitespace only is the trimmed string.
   */
  lemma TrimUnique(s: string, p: string, t: string, q: string)
    requires AllWhitespace(p) && AllWhitespace(q) && s == p + t + q
    requires t != [] && !IsWhitespace(t[0]) && !IsWhitespace(t[|t| - 1])
    ensures Trim(s) == t
  {
    var lead := LeadingWhitespace(s);
    assert s[|p|] == t[0];
    assert lead == |p| by {
      assert forall k :: 0 <= k < |p| ==> s[k] == p[k];
    }
    var trail := TrailingWhitespace(s);
    assert s[|s| - 1 - |q|] == t[|t| - 1];
    assert trail == |q| by {
      assert forall k :: 0 <= k < |q| ==> s[|s| - |q| + k] == q[k];
    }
    assert s[|p|..|s| - |q|] == t;
  }

  /** Kotlin's `s.contains(sub)`: `sub` occurs somewhere in `s`. */
  predicate Contains(s: string, sub: string) {
    sub <= s || (s != [] && Contains(s[1..], sub))
  }

  /** `sub` occurs in `s` exactly when it starts at some index of `s`. */
  lemma {:induction false} ContainsIff(s: string, sub: string)
    ensures Contains(s, sub) <==> exists i :: 0 <= i <= |s| && sub <= s[i..]
  {
    assert s[0..] == s;
    if s != [] {
      ContainsIff(s[1..], sub);
      assert forall i :: 1 <= i <= |s| ==> s[i..] == s[1..][i - 1..];
      if Contains(s[1..], sub) {
        var i :| 0 <= i <= |s[1..]| && sub <= s[1..][i..];
        assert sub <= s[i + 1..];
      }
      if exists i :: 0 <= i <= |s| && sub <= s[i..] {
        var i :| 0 <= i <= |s| && sub <= s[i..];
        if i > 0 {
          assert sub <= s[1..][i - 1..];
        }
      }
    }
  }

  lemma {:induction false} ContainsAt(s: string, i: nat, sub: string)
    requires i + |sub| <= |s| && s[i..i + |sub|] == sub
    ensures Contains(s, sub)
  {
    if i > 0 {
      assert s[1..][i - 1..i - 1 + |sub|] == sub;
      ContainsAt(s[1..], i - 1, sub);
    }
  }

  /** `s` up to (not including) the first `c`, or all of `s` when it has no `c`. */
  function Before(s: string, c: char): (t: string)
    ensures t <= s && c !in t
    ensures c in s ==> |t| < |s| && s[|t|] == c
    ensures c !in s ==> t == s
  {
    if s == [] then []
    else if s[0] == c then []
    else [s[0]] + Before(s[1..], c)
  }

  /** `s` after its first `c`. */
  function After(s: string, c: char): (t: string)
    requires c in s
    ensures s == Before(s, c) + [c] + t
  {
    s[|Before(s, c)| + 1..]
  }

  lemma {:induction false} BeforeOfAppend(a: string, c: char, b: string)
    requires c !in a
    ensures Before(a + [c] + b, c) == a
    ensures After(a + [c] + b, c) == b
  {
    if a == [] {
      assert (a + [c] + b)[0] == c;
    } else {
      assert (a + [c] + b)[1..] == a[1..] + [c] + b;
      BeforeOfAppend(a[1..], c, b);
    }
  }

  /** Number of occurrences of `c` in `s`. */
  function Count(s: string, c: char): nat {
    if s == [] then 0 else (if s[0] == c then 1 else 0) + Count(s[1..], c)
  }

  /** Kotlin's `parts.joinToString(sep)`, for a non-empty list. */
  function Join(parts: seq<string>, sep: char): string
    requires |parts| > 0
  {
    if |parts| == 1 then parts[0] else parts[0] + [sep] + Join(parts[1..], sep)
  }

  /**
   * Kotlin's `s.split(sep)` for a one-character delimiter: no trimming, no
   * empty entries dropped (so "" splits into [""] and "a," into ["a", ""]).
   * There is one part more than there are separators, no part holds the
   * separator, and joining the parts back gives `s`.
   */
  function Split(s: string, sep: char): (parts: seq<string>)
    ensures |parts| == Count(s, sep) + 1
    ensures forall p :: p in parts ==> sep !in p
    ensures Join(parts, sep) == s
  {
    if s == [] then
      [[]]
    else
      var rest := Split(s[1..], sep);
      if s[0] == sep then
        assert ([[]] + rest)[1..] == rest;
        [[]] + rest
      else
        var parts := [[s[0]] + rest[0]] + rest[1..];
        assert parts[1..] == rest[1..];
        assert Join(parts, sep) == s by {
          if |rest| > 1 {
            assert rest[1..][1..] == rest[2..];
            assert Join(rest, sep) == rest[0] + [sep] + Join(rest[1..], sep);
            assert s == [s[0]] + s[1..];
          }
        }
        parts
  }

  /** Splitting a text that starts with a separator-free `p` puts `p` in front of the first part. */
  lemma {:induction false} SplitOfPrefix(p: string, t: string, sep: char)
    requires sep !in p
    ensures Split(p + t, sep) == [p + Split(t, sep)[0]] + Split(t, sep)[1..]
  {
    if p == [] {
      var parts := Split(t, sep);
      assert p + t == t && p + parts[0] == parts[0];
      assert parts == [parts[0]] + parts[1..];
    } else {
      assert (p + t)[0] == p[0];
      assert (p + t)[1..] == p[1..] + t;
      SplitOfPrefix(p[1..], t, sep);
      assert [p[0]] + (p[1..] + Split(t, sep)[0]) == p + Split(t, sep)[0];
    }
  }

  /** `Split` undoes `Join` when no part holds the separator. */
  lemma {:induction false} SplitOfJoin(parts: seq<string>, sep: char)
    requires |parts| > 0
    requires forall p :: p in parts ==> sep !in p
    ensures Split(Join(parts, sep), sep) == parts
  {
    if |parts| == 1 {
      SplitOfPrefix(parts[0], [], sep);
      assert parts[0] + [] == parts[0];
    } else {
      var rest := Join(parts[1..], sep);
      SplitOfJoin(parts[1..], sep);
      SplitOfPrefix(parts[0], [sep] + rest, sep);
      assert parts[0] + [sep] + rest == parts[0] + ([sep] + rest);
      assert ([sep] + rest)[1..] == rest;
      assert parts[0] + [] == parts[0];
      assert parts == [parts[0]] + parts[1..];
    }
  }

  /** A character other than the separator occurs in a join only if it occurs in a part. */
  lemma {:induction false} JoinAvoids(parts: seq<string>, sep: char, c: char)
    requires |parts| > 0 && c != sep
    requires forall p :: p in parts ==> c !in p
    ensures c !in Join(parts, sep)
  {
    if |parts| > 1 {
      assert forall p :: p in parts[1..] ==> p in parts;
      JoinAvoids(parts[1..], sep, c);
    }
  }
}
