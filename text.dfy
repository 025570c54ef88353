/**
 * Rust's `str::trim` as used on the captured output streams
 * (src/lib.rs:200): it strips characters with the Unicode White_Space
 * property from both ends.
 */
module Text {

  /** `char::is_whitespace`: the Unicode White_Space property. */
  predicate IsWhitespace(c: char) {
    var n := c as int;
    (0x09 <= n <= 0x0D) || n == 0x20 || n == 0x85 || n == 0xA0 || n == 0x1680
    || (0x2000 <= n <= 0x200A) || n == 0x2028 || n == 0x2029 || n == 0x202F
    || n == 0x205F || n == 0x3000
  }

  predicate AllWhitespace(s: string) {
    forall k | 0 <= k < |s| :: IsWhitespace(s[k])
  }

  /** How many whitespace characters `s` starts with: all of them, up to the first other character. */
  function LeadingWhitespace(s: string): (n: nat)
    ensures n <= |s|
    ensures forall k | 0 <= k < n :: IsWhitespace(s[k])
    ensures n == |s| || !IsWhitespace(s[n])
  {
    if s != [] && IsWhitespace(s[0]) then 1 + LeadingWhitespace(s[1..]) else 0
  }

  /** How many whitespace characters `s` ends with: all of them, back to the last other character. */
  function TrailingWhitespace(s: string): (n: nat)
    ensures n <= |s|
    ensures forall k | |s| - n <= k < |s| :: IsWhitespace(s[k])
    ensures n == |s| || !IsWhitespace(s[|s| - n - 1])
  {
    if s != [] && IsWhitespace(s[|s| - 1]) then 1 + TrailingWhitespace(s[..|s| - 1]) else 0
  }

  /** `str::trim_start`: drops the leading whitespace, and only that. */
  function TrimStart(s: string): (r: string)
    ensures |r| <= |s| && r == s[|s| - |r|..]
    ensures forall k | 0 <= k < |s| - |r| :: IsWhitespace(s[k])
    ensures r == [] || !IsWhitespace(r[0])
  {
    s[LeadingWhitespace(s)..]
  }

  /** `str::trim_end`: drops the trailing whitespace, and only that. */
  function TrimEnd(s: string): (r: string)
    ensures |r| <= |s| && r == s[..|r|]
    ensures forall k | |r| <= k < |s| :: IsWhitespace(s[k])
    ensures r == [] || !IsWhitespace(r[|r| - 1])
  {
    s[..|s| - TrailingWhitespace(s)]
  }

  /**
   * `str::trim`: the slice of `s` left once the whitespace at both ends is
   * gone. It is empty exactly when `s` is all whitespace; otherwise it starts
   * and ends with a non-whitespace character.
   */
  function Trim(s: string): (r: string)
    ensures var i := LeadingWhitespace(s);
      && i + |r| <= |s|
      && r == s[i..i + |r|]
      && (forall k | 0 <= k < i :: IsWhitespace(s[k]))
      && (forall k | i + |r| <= k < |s| :: IsWhitespace(s[k]))
    ensures r == [] <==> AllWhitespace(s)
    ensures r == [] || (!IsWhitespace(r[0]) && !IsWhitespace(r[|r| - 1]))
  {
    TrimEndOfTrimStart(s);
    TrimEnd(TrimStart(s))
  }

  /** The facts `Trim` promises, established on its definition. */
  lemma TrimEndOfTrimStart(s: string)
    ensures var i := LeadingWhitespace(s); var r := TrimEnd(TrimStart(s));
      && i + |r| <= |s|
      && r == s[i..i + |r|]
      && (forall k | i + |r| <= k < |s| :: IsWhitespace(s[k]))
      && (r == [] <==> AllWhitespace(s))
      && (r == [] || (!IsWhitespace(r[0]) && !IsWhitespace(r[|r| - 1])))
  {
    var i := LeadingWhitespace(s);
    var t := s[i..];
    var j := TrailingWhitespace(t);
    var r := t[..|t| - j];
    assert r == TrimEnd(TrimStart(s));
    TrimSlice(s, i, t, j, r);
    TrimEnds(s, i, t, j, r);
  }

  lemma TrimSlice(s: string, i: nat, t: string, j: nat, r: string)
    requires i <= |s| && t == s[i..]
    requires j <= |t| && forall k | |t| - j <= k < |t| :: IsWhitespace(t[k])
    requires r == t[..|t| - j]
    ensures i + |r| <= |s| && r == s[i..i + |r|]
    ensures forall k | i + |r| <= k < |s| :: IsWhitespace(s[k])
  {
    forall k | i + |r| <= k < |s| ensures IsWhitespace(s[k]) {
      assert s[k] == t[k - i];
    }
  }

  lemma TrimEnds(s: string, i: nat, t: string, j: nat, r: string)
    requires i == LeadingWhitespace(s) && t == s[i..]
    requires j == TrailingWhitespace(t) && r == t[..|t| - j]
    ensures r == [] <==> AllWhitespace(s)
    ensures r == [] || (!IsWhitespace(r[0]) && !IsWhitespace(r[|r| - 1]))
  {
    assert i < |s| ==> t[0] == s[i] && !IsWhitespace(t[0]);
    if r != [] {
      assert r[0] == s[i];
      assert r[|r| - 1] == t[|t| - j - 1];
    }
  }

  lemma AllWhitespaceConcat(a: string, b: string)
    requires AllWhitespace(a) && AllWhitespace(b)
    ensures AllWhitespace(a + b)
  {
    forall k | 0 <= k < |a + b| ensures IsWhitespace((a + b)[k]) {
      if k < |a| { assert (a + b)[k] == a[k]; } else { assert (a + b)[k] == b[k - |a|]; }
    }
  }

  lemma {:induction false} LeadingOfPadded(a: string, rest: string)
    requires AllWhitespace(a)
    requires rest == [] || !IsWhitespace(rest[0])
    ensures LeadingWhitespace(a + rest) == |a|
  {
    if a != [] {
      assert (a + rest)[1..] == a[1..] + rest;
      LeadingOfPadded(a[1..], rest);
    } else {
      assert a + rest == rest;
    }
  }

  lemma {:induction false} TrailingOfPadded(rest: string, b: string)
    requires AllWhitespace(b)
    requires rest == [] || !IsWhitespace(rest[|rest| - 1])
    ensures TrailingWhitespace(rest + b) == |b|
  {
    if b != [] {
      assert (rest + b)[..|rest + b| - 1] == rest + b[..|b| - 1];
      TrailingOfPadded(rest, b[..|b| - 1]);
    } else {
      assert rest + b == rest;
    }
  }

  /**
   * Trimming removes exactly the surrounding whitespace: text that neither
   * starts nor ends with whitespace comes back unchanged from any padding.
   */
  lemma TrimOfPadded(a: string, t: string, b: string)
    requires AllWhitespace(a) && AllWhitespace(b)
    requires t == [] || (!IsWhitespace(t[0]) && !IsWhitespace(t[|t| - 1]))
    ensures Trim(a + t + b) == t
  {
    if t == [] {
      assert a + t + b == a + b;
      AllWhitespaceConcat(a, b);
    } else {
      assert a + t + b == a + (t + b);
      LeadingOfPadded(a, t + b);
      assert TrimStart(a + t + b) == t + b;
      TrailingOfPadded(t, b);
    }
  }

  /** Trimming twice is trimming once. */
  lemma TrimIdempotent(s: string)
    ensures Trim(Trim(s)) == Trim(s)
  {
    var t := Trim(s);
    assert t == [] + t + [];
    TrimOfPadded([], t, []);
  }
}
