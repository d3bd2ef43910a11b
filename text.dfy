/** The two pieces of JavaScript string behaviour the pages rely on:
    `String.prototype.trim` and a case-insensitive prefix test as done by a
    regular expression with the `i` flag over ASCII letters. */
module Text {

  /** WhiteSpace and LineTerminator code points of ECMAScript, the set that
      `trim` removes from both ends. */
  predicate IsWhitespace(c: char)
  {
    var n := c as int;
    n == 0x09 || n == 0x0A || n == 0x0B || n == 0x0C || n == 0x0D || n == 0x20
    || n == 0xA0 || n == 0x1680 || (0x2000 <= n <= 0x200A)
    || n == 0x2028 || n == 0x2029 || n == 0x202F || n == 0x205F
    || n == 0x3000 || n == 0xFEFF
  }

  predicate AllWhitespace(s: string)
  {
    forall k :: 0 <= k < |s| ==> IsWhitespace(s[k])
  }

  /** Removes the longest whitespace prefix. */
  function TrimStart(s: string): string
  {
    if s != [] && IsWhitespace(s[0]) then TrimStart(s[1..]) else s
  }

  /** `TrimStart` returns a suffix of its input that does not start with
      whitespace, and what it cuts away is whitespace. */
  lemma {:induction false} TrimStartSpec(s: string)
    ensures var r := TrimStart(s);
      && |r| <= |s| && r == s[|s| - |r|..]
      && AllWhitespace(s[..|s| - |r|])
      && (r != [] ==> !IsWhitespace(r[0]))
  {
    if s != [] && IsWhitespace(s[0]) {
      var t := s[1..];
      var r := TrimStart(t);
      TrimStartSpec(t);
      assert TrimStart(s) == r;
      var k := |s| - |r|;
      assert t[|t| - |r|..] == s[k..];
      forall j | 0 <= j < k
        ensures IsWhitespace(s[..k][j])
      {
        if j > 0 {
          assert s[..k][j] == t[..|t| - |r|][j - 1];
        }
      }
    }
  }

  /** Removes the longest whitespace suffix. */
  function TrimEnd(s: string): string
  {
    if s != [] && IsWhitespace(s[|s| - 1]) then TrimEnd(s[..|s| - 1]) else s
  }

  /** `TrimEnd` returns a prefix of its input that does not end with
      whitespace, and what it cuts away is whitespace. */
  lemma {:induction false} TrimEndSpec(s: string)
    ensures var r := TrimEnd(s);
      && |r| <= |s| && r == s[..|r|]
      && AllWhitespace(s[|r|..])
      && (r != [] ==> !IsWhitespace(r[|r| - 1]))
  {
    if s != [] && IsWhitespace(s[|s| - 1]) {
      var r := TrimEnd(s[..|s| - 1]);
      TrimEndSpec(s[..|s| - 1]);
      assert s[..|s| - 1][..|r|] == s[..|r|];
      assert s[|r|..] == s[..|s| - 1][|r|..] + [s[|s| - 1]];
    }
  }

  /** `String.prototype.trim`. */
  function Trim(s: string): (r: string)
    ensures |r| <= |s|
  {
    TrimStartSpec(s);
    TrimEndSpec(TrimStart(s));
    TrimEnd(TrimStart(s))
  }

  /** A string that neither starts nor ends with whitespace is left alone. */
  lemma TrimLeavesTrimmed(s: string)
    requires s != [] ==> !IsWhitespace(s[0]) && !IsWhitespace(s[|s| - 1])
    ensures Trim(s) == s
  {
    assert TrimStart(s) == s;
  }

  /** Where the trimmed text starts inside the input. */
  function TrimOffset(s: string): nat
  {
    TrimStartSpec(s);
    |s| - |TrimStart(s)|
  }

  /** The trimmed string is the contiguous slice of the input starting at
      `TrimOffset(s)`. */
  lemma TrimSlice(s: string)
    ensures var i, r := TrimOffset(s), Trim(s);
      i + |r| <= |s| && r == s[i..i + |r|]
  {
    var t := TrimStart(s);
    var r := TrimEnd(t);
    TrimStartSpec(s);
    TrimEndSpec(t);
    assert Trim(s) == r && TrimOffset(s) == |s| - |t|;
    var i := |s| - |t|;
    assert t == s[i..];
    assert r == t[..|r|];
    assert s[i..i + |r|] == t[..|r|];
  }

  /** Only whitespace is cut away on either side of the slice. */
  lemma TrimCutsWhitespace(s: string)
    ensures var i, r := TrimOffset(s), Trim(s);
      i + |r| <= |s| && AllWhitespace(s[..i]) && AllWhitespace(s[i + |r|..])
  {
    var t := TrimStart(s);
    var r := TrimEnd(t);
    var i := |s| - |t|;
    TrimStartSpec(s);
    TrimEndSpec(t);
    var tail := s[i + |r|..];
    forall k | 0 <= k < |tail|
      ensures IsWhitespace(tail[k])
    {
      assert tail[k] == t[|r|..][k];
    }
  }

  /** No whitespace is left at either end of the trimmed string. */
  lemma TrimEnds(s: string)
    ensures var r := Trim(s);
      r != [] ==> !IsWhitespace(r[0]) && !IsWhitespace(r[|r| - 1])
  {
    var t := TrimStart(s);
    var r := TrimEnd(t);
    TrimStartSpec(s);
    TrimEndSpec(t);
    if r != [] {
      assert r[0] == t[0];
    }
  }

  /** Trimming yields the empty string exactly when the input holds only
      whitespace. */
  lemma TrimEmptyIff(s: string)
    ensures Trim(s) == [] <==> AllWhitespace(s)
  {
    var t := TrimStart(s);
    TrimStartSpec(s);
    TrimEndSpec(t);
    if Trim(s) == [] {
      assert s == s[..|s| - |t|] + t;
      assert t == t[|Trim(s)|..];
    } else {
      assert s[|s| - |t|] == t[0];
    }
  }

  /** Trimming twice is trimming once. */
  lemma TrimIdempotent(s: string)
    ensures Trim(Trim(s)) == Trim(s)
  {
    TrimEnds(s);
    TrimLeavesTrimmed(Trim(s));
  }

  /** ASCII-only upper-to-lower mapping: the case folding a JavaScript
      regular expression with the `i` flag (and no `u` flag) applies when
      the pattern letter is ASCII, since a non-ASCII character never
      canonicalises to an ASCII one. */
  function AsciiLower(c: char): char
  {
    if 'A' <= c <= 'Z' then (c as int + 32) as char else c
  }

  /** `s` begins with `prefix`, letters compared without case; `prefix` is
      written in lower case. */
  predicate StartsWithIgnoringCase(s: string, prefix: string)
  {
    |prefix| <= |s| && forall k :: 0 <= k < |prefix| ==> AsciiLower(s[k]) == prefix[k]
  }

  /** A string that literally begins with a lower-case prefix passes the
      case-insensitive test. */
  lemma LiteralPrefixMatches(prefix: string, rest: string)
    requires forall k :: 0 <= k < |prefix| ==> !('A' <= prefix[k] <= 'Z')
    ensures StartsWithIgnoringCase(prefix + rest, prefix)
  {
  }
}
