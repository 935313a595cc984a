/**
 * The two JavaScript string operations the components rely on:
 * `String.prototype.startsWith` and `String.prototype.trim`.
 */
module Text {

  /**
   * `s.startsWith(p)`: `s` begins with the characters of `p`. Strings here
   * are sequences of Unicode scalar values; since UTF-16 encodes each of them
   * on its own, this agrees with JavaScript's comparison of code units.
   */
  predicate StartsWith(s: string, p: string)
  {
    |p| <= |s| && s[..|p|] == p
  }

  /** How many UTF-16 code units encode `c`: two above the Basic Multilingual Plane, one otherwise. */
  function CodeUnits(c: char): nat
  {
    if c as int >= 0x1_0000 then 2 else 1
  }

  /** JavaScript's `s.length`: the number of UTF-16 code units of `s`. */
  function Utf16Length(s: string): (n: nat)
    ensures |s| <= n <= 2 * |s|
  {
    if |s| == 0 then 0 else CodeUnits(s[0]) + Utf16Length(s[1..])
  }

  /** A string of Basic Multilingual Plane characters has as many code units as characters. */
  lemma {:induction false} Utf16LengthBmp(s: string)
    requires forall i | 0 <= i < |s| :: s[i] as int < 0x1_0000
    ensures Utf16Length(s) == |s|
  {
    if |s| > 0 {
      Utf16LengthBmp(s[1..]);
    }
  }

  /** Code units add up over a concatenation. */
  lemma {:induction false} Utf16LengthConcat(a: string, b: string)
    ensures Utf16Length(a + b) == Utf16Length(a) + Utf16Length(b)
  {
    if |a| > 0 {
      assert (a + b)[1..] == a[1..] + b;
      Utf16LengthConcat(a[1..], b);
    } else {
      assert a + b == b;
    }
  }

  /**
   * The characters `trim` removes: ECMAScript's WhiteSpace (tab, vertical
   * tab, form feed, the byte order mark and every space separator) and
   * LineTerminator (line feed, carriage return, line and paragraph separator).
   */
  predicate IsWhitespace(c: char)
  {
    c == '\t' || c == '\n' || c == '\U{B}' || c == '\U{C}' || c == '\r' || c == ' '
    || c == '\U{A0}' || c == '\U{1680}' || ('\U{2000}' <= c <= '\U{200A}')
    || c == '\U{2028}' || c == '\U{2029}' || c == '\U{202F}' || c == '\U{205F}'
    || c == '\U{3000}' || c == '\U{FEFF}'
  }

  /** Every character of `s` is white space (the empty string included). */
  predicate IsBlank(s: string)
  {
    forall i | 0 <= i < |s| :: IsWhitespace(s[i])
  }

  /** Drops leading white space: what is left follows the longest blank prefix. */
  function TrimStart(s: string): (r: string)
    ensures |r| <= |s| && r == s[|s| - |r|..]
    ensures IsBlank(s[..|s| - |r|])
    ensures r == [] || !IsWhitespace(r[0])
  {
    if |s| > 0 && IsWhitespace(s[0]) then
      var r := TrimStart(s[1..]);
      assert s[..|s| - |r|] == [s[0]] + s[1..][..|s| - 1 - |r|];
      BlankConcat([s[0]], s[1..][..|s| - 1 - |r|]);
      r
    else s
  }

  /** Drops trailing white space: what is left precedes the longest blank suffix. */
  function TrimEnd(s: string): (r: string)
    ensures |r| <= |s| && r == s[..|r|]
    ensures IsBlank(s[|r|..])
    ensures r == [] || !IsWhitespace(r[|r| - 1])
  {
    if |s| > 0 && IsWhitespace(s[|s| - 1]) then TrimEnd(s[..|s| - 1]) else s
  }

  /** `s.trim()`: no longer than `s`, and neither begins nor ends with white space. */
  function Trim(s: string): (r: string)
    ensures |r| <= |s|
    ensures r == [] || (!IsWhitespace(r[0]) && !IsWhitespace(r[|r| - 1]))
  {
    TrimEnd(TrimStart(s))
  }

  /**
   * What `s.trim()` keeps: the infix of `s` that starts at offset `k` and sits
   * between a blank prefix and a blank suffix.
   */
  lemma TrimIsInfix(s: string) returns (k: nat)
    ensures k + |Trim(s)| <= |s| && Trim(s) == s[k..k + |Trim(s)|]
    ensures IsBlank(s[..k]) && IsBlank(s[k + |Trim(s)|..])
  {
    var t := TrimStart(s);
    var r := TrimEnd(t);
    k := |s| - |t|;
    assert t == s[k..];
    assert s[k + |r|..] == t[|r|..];
    assert s[k..k + |r|] == t[..|r|];
  }

  /** A concatenation is blank exactly when both of its parts are. */
  lemma BlankConcat(a: string, b: string)
    ensures IsBlank(a + b) <==> IsBlank(a) && IsBlank(b)
  {
    if IsBlank(a) && IsBlank(b) {
      forall i | 0 <= i < |a + b| ensures IsWhitespace((a + b)[i]) {
        if i < |a| { assert (a + b)[i] == a[i]; } else { assert (a + b)[i] == b[i - |a|]; }
      }
    }
    if IsBlank(a + b) {
      forall i | 0 <= i < |a| ensures IsWhitespace(a[i]) { assert (a + b)[i] == a[i]; }
      forall i | 0 <= i < |b| ensures IsWhitespace(b[i]) { assert (a + b)[|a| + i] == b[i]; }
    }
  }

  /** `!s.trim()` in JavaScript: trimming leaves nothing exactly when `s` is blank. */
  lemma TrimEmptyIffBlank(s: string)
    ensures Trim(s) == [] <==> IsBlank(s)
  {
    var t := TrimStart(s);
    var k := |s| - |t|;
    assert s == s[..k] + t;
    BlankConcat(s[..k], t);
    if Trim(s) == [] {
      assert t[0..] == t;
    }
  }
}
