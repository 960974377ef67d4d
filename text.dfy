/**
 * The two JavaScript string operations the controllers rely on:
 * `String.prototype.trim` (the emptiness guards of the chat and diagram
 * forms) and `String.prototype.includes` (the message classifier of the
 * configuration editor).
 */
module Text {

  /** WhiteSpace and LineTerminator code points of ECMAScript, which `trim` strips. */
  predicate IsWhitespace(c: char) {
    c == '\t' || c == '\n' || c == '\U{000B}' || c == '\U{000C}' || c == '\r' ||
    c == ' ' || c == '\U{00A0}' || c == '\U{1680}' || ('\U{2000}' <= c <= '\U{200A}') ||
    c == '\U{2028}' || c == '\U{2029}' || c == '\U{202F}' || c == '\U{205F}' ||
    c == '\U{3000}' || c == '\U{FEFF}'
  }

  /** Every character of `s` is whitespace (vacuously so for the empty string). */
  ghost predicate AllWhitespace(s: string) {
    forall i :: 0 <= i < |s| ==> IsWhitespace(s[i])
  }

  /** Drops leading whitespace: the result is the suffix of `s` that starts at its first non-whitespace character. */
  function TrimStart(s: string): (r: string)
    ensures |r| <= |s| && r == s[|s| - |r|..]
    ensures forall i :: 0 <= i < |s| - |r| ==> IsWhitespace(s[i])
    ensures r == [] || !IsWhitespace(r[0])
  {
    if |s| > 0 && IsWhitespace(s[0]) then TrimStart(s[1..]) else s
  }

  /** Drops trailing whitespace: the result is the prefix of `s` that ends at its last non-whitespace character. */
  function TrimEnd(s: string): (r: string)
    ensures |r| <= |s| && r == s[..|r|]
    ensures forall i :: |r| <= i < |s| ==> IsWhitespace(s[i])
    ensures r == [] || !IsWhitespace(r[|r| - 1])
  {
    if |s| > 0 && IsWhitespace(s[|s| - 1]) then TrimEnd(s[..|s| - 1]) else s
  }

  /** `s.trim()`: the whitespace at both ends is dropped, so the result neither starts nor ends with whitespace. */
  function Trim(s: string): (r: string)
    ensures |r| <= |s|
    ensures r == [] || (!IsWhitespace(r[0]) && !IsWhitespace(r[|r| - 1]))
  {
    var t := TrimStart(s);
    assert TrimEnd(t) == [] || TrimEnd(t)[0] == t[0];
    TrimEnd(t)
  }

  /** `r` is the slice of `s` at position `a`, with only whitespace before and after it. */
  ghost predicate WhitespaceAround(s: string, a: int, r: string) {
    0 <= a <= |s| - |r| && r == s[a..a + |r|] && AllWhitespace(s[..a]) && AllWhitespace(s[a + |r|..])
  }

  /** What `trim` drops is whitespace: the result is the slice of `s` between a whitespace prefix and a whitespace suffix. */
  lemma TrimDropsOnlyWhitespace(s: string)
    ensures exists a :: WhitespaceAround(s, a, Trim(s))
  {
    var t := TrimStart(s);
    var a := |s| - |t|;
    TrimAt(s, t, TrimEnd(t), a);
    assert WhitespaceAround(s, a, Trim(s));
  }

  /** The trimmed string sits in `s` where `TrimStart` stopped, between whitespace. */
  lemma TrimAt(s: string, t: string, r: string, a: int)
    requires t == TrimStart(s) && r == TrimEnd(t) && a == |s| - |t|
    ensures WhitespaceAround(s, a, r)
  {
    SliceAt(s, t, r, a);
    WhitespaceBefore(s, a);
    WhitespaceAfter(s, t, r, a);
  }

  lemma SliceAt(s: string, t: string, r: string, a: int)
    requires 0 <= a <= |s| && t == s[a..] && |r| <= |t| && r == t[..|r|]
    ensures r == s[a..a + |r|]
  {
  }

  lemma WhitespaceBefore(s: string, a: int)
    requires a == |s| - |TrimStart(s)|
    ensures AllWhitespace(s[..a])
  {
    forall i | 0 <= i < a ensures IsWhitespace(s[..a][i]) {
      assert s[..a][i] == s[i];
    }
  }

  lemma WhitespaceAfter(s: string, t: string, r: string, a: int)
    requires 0 <= a <= |s| && t == s[a..] && r == TrimEnd(t)
    ensures AllWhitespace(s[a + |r|..])
  {
    var tail := s[a + |r|..];
    forall i | 0 <= i < |tail| ensures IsWhitespace(tail[i]) {
      assert tail[i] == t[|r| + i];
    }
  }

  /** `!s.trim()`: the trimmed string is empty, which JavaScript treats as false; exactly when `s` is all whitespace. */
  predicate IsBlank(s: string)
    ensures IsBlank(s) <==> AllWhitespace(s)
  {
    TrimEmptyIffAllWhitespace(s);
    Trim(s) == ""
  }

  /** Trimming leaves nothing exactly when every character is whitespace. */
  lemma TrimEmptyIffAllWhitespace(s: string)
    ensures Trim(s) == "" <==> AllWhitespace(s)
  {
    var t := TrimStart(s);
    var a := |s| - |t|;
    if Trim(s) == "" {
      assert t == [];
    } else if t != [] {
      assert t[0] == s[a];
    }
  }

  /** A blank string is one whose every character is whitespace; a string with some other character is not blank. */
  lemma NotBlankWhenSomeVisible(s: string, i: int)
    requires 0 <= i < |s| && !IsWhitespace(s[i])
    ensures !IsBlank(s)
  {
  }

  /** `s.startsWith(p)` */
  predicate StartsWith(s: string, p: string) {
    |p| <= |s| && s[..|p|] == p
  }

  /** `s.includes(sub)`: `sub` occurs in `s` at some position. */
  predicate Contains(s: string, sub: string)
    decreases |s|
    ensures Contains(s, sub) ==> |sub| <= |s|
  {
    StartsWith(s, sub) || (|s| > 0 && Contains(s[1..], sub))
  }

  /** `sub` occurs in `s` starting at position `k`. */
  ghost predicate OccursAt(s: string, sub: string, k: int) {
    0 <= k <= |s| - |sub| && s[k..k + |sub|] == sub
  }

  /** `Contains` agrees with the positional definition of an occurrence. */
  lemma {:induction false} ContainsIffOccurs(s: string, sub: string)
    ensures Contains(s, sub) <==> exists k :: OccursAt(s, sub, k)
    decreases |s|
  {
    if StartsWith(s, sub) {
      assert OccursAt(s, sub, 0);
    } else if |s| == 0 {
      assert |sub| > 0;
    } else {
      ContainsIffOccurs(s[1..], sub);
      if Contains(s[1..], sub) {
        var k :| OccursAt(s[1..], sub, k);
        assert s[k + 1..k + 1 + |sub|] == s[1..][k..k + |sub|];
        assert OccursAt(s, sub, k + 1);
      } else {
        forall k | 0 <= k <= |s| - |sub| ensures !OccursAt(s, sub, k) {
          if k == 0 {
            assert s[..|sub|] == s[k..k + |sub|];
          } else {
            assert s[k..k + |sub|] == s[1..][k - 1..k - 1 + |sub|];
            assert !OccursAt(s[1..], sub, k - 1);
          }
        }
      }
    }
  }

  /** A string contains its own middle part: `(a + b + c).includes(b)`. */
  lemma {:induction false} ContainsMiddle(a: string, b: string, c: string)
    ensures Contains(a + b + c, b)
    decreases |a|
  {
    if |a| == 0 {
      assert a + b + c == b + c;
      assert (b + c)[..|b|] == b;
    } else {
      assert (a + b + c)[1..] == a[1..] + b + c;
      ContainsMiddle(a[1..], b, c);
    }
  }

  /** A non-empty pattern whose first character is absent from `s` does not occur in `s`. */
  lemma {:induction false} NotContainsWithoutFirstChar(s: string, sub: string)
    requires |sub| > 0 && sub[0] !in s
    ensures !Contains(s, sub)
    decreases |s|
  {
    if |sub| <= |s| {
      assert s[..|sub|][0] == s[0];
    }
    if |s| > 0 {
      assert forall c :: c in s[1..] ==> c in s;
      NotContainsWithoutFirstChar(s[1..], sub);
    }
  }
}
