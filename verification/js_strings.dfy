/**
 * The few JavaScript string operations the storefront relies on, stated over
 * Dafny strings (sequences of Unicode scalar values).
 */
module JsStrings {

  /** ASCII case folding: 'A'..'Z' become 'a'..'z', every other character is kept. */
  function LowerChar(c: char): char
  {
    if 'A' <= c <= 'Z' then (c as int + 32) as char else c
  }

  /** String.prototype.toLowerCase, restricted to ASCII case folding. */
  function ToLower(s: string): string
  {
    seq(|s|, i requires 0 <= i < |s| => LowerChar(s[i]))
  }

  /** Folding a string that is already folded changes nothing. */
  lemma ToLowerIdempotent(s: string)
    ensures ToLower(ToLower(s)) == ToLower(s)
    ensures |ToLower(s)| == |s|
  {
  }

  /** String.prototype.includes: `t` occurs in `s` at some offset. */
  predicate Includes(s: string, t: string)
    decreases |s|
  {
    t <= s || (|s| > 0 && Includes(s[1..], t))
  }

  /** `Includes` holds exactly when `t` sits in `s` at some offset `i`. */
  lemma {:induction false} IncludesAt(s: string, t: string)
    ensures Includes(s, t) <==> exists i :: 0 <= i <= |s| - |t| && t <= s[i..]
    decreases |s|
  {
    if t <= s {
      assert s[0..] == s;
    } else if |s| > 0 {
      IncludesAt(s[1..], t);
      if exists i :: 0 <= i <= |s[1..]| - |t| && t <= s[1..][i..] {
        var i :| 0 <= i <= |s[1..]| - |t| && t <= s[1..][i..];
        assert s[1..][i..] == s[i + 1..];
      }
      if exists i :: 0 <= i <= |s| - |t| && t <= s[i..] {
        var i :| 0 <= i <= |s| - |t| && t <= s[i..];
        assert i != 0 by { assert s[0..] == s; }
        assert s[1..][i - 1..] == s[i..];
      }
    } else {
      assert s[0..] == s;
    }
  }

  /** A non-empty `t` whose first character never occurs in `s` is not included in `s`. */
  lemma {:induction false} NotIncludedWithoutFirstChar(s: string, t: string)
    requires |t| > 0
    requires forall i :: 0 <= i < |s| ==> s[i] != t[0]
    ensures !Includes(s, t)
    decreases |s|
  {
    if |s| > 0 {
      assert s[0] != t[0];
      assert !(t <= s);
      assert forall i :: 0 <= i < |s[1..]| ==> s[1..][i] == s[i + 1];
      NotIncludedWithoutFirstChar(s[1..], t);
    } else {
      assert !(t <= s);
    }
  }

  /** The empty string is included in every string. */
  lemma IncludesEmpty(s: string)
    ensures Includes(s, "")
  {
  }

  /** Whether a character takes two UTF-16 code units (it lies outside the Basic Multilingual Plane). */
  predicate IsAstral(c: char)
  {
    c as int > 0xFFFF
  }

  /**
   * String.prototype.length: the number of UTF-16 code units of `s`, so a
   * character outside the Basic Multilingual Plane counts twice.
   */
  function JsLength(s: string): (n: nat)
    ensures |s| <= n <= 2 * |s|
  {
    if s == [] then 0 else (if IsAstral(s[0]) then 2 else 1) + JsLength(s[1..])
  }

  /**
   * The JavaScript length equals the number of characters exactly when no
   * character lies outside the Basic Multilingual Plane.
   */
  lemma {:induction false} JsLengthOfBmp(s: string)
    ensures JsLength(s) == |s| <==> forall i :: 0 <= i < |s| ==> !IsAstral(s[i])
  {
    if s != [] {
      JsLengthOfBmp(s[1..]);
      assert forall i :: 1 <= i < |s| ==> s[i] == s[1..][i - 1];
    }
  }

  /** The decimal digits of `n`, as a JavaScript template literal prints a non-negative integer. */
  function DecimalString(n: nat): (r: string)
    ensures |r| > 0
    ensures forall i :: 0 <= i < |r| ==> '0' <= r[i] <= '9'
    ensures n < 10 <==> |r| == 1
  {
    if n < 10 then [('0' as int + n) as char]
    else DecimalString(n / 10) + [('0' as int + n % 10) as char]
  }

  /** The number a string of decimal digits denotes, most significant digit first. */
  function DigitsValue(s: string): nat
  {
    if s == [] then 0
    else
      var c := s[|s| - 1];
      DigitsValue(s[..|s| - 1]) * 10 + (if '0' <= c <= '9' then c as int - '0' as int else 0)
  }

  /** The decimal text of `n` reads back as `n`. */
  lemma {:induction false} DecimalStringValue(n: nat)
    ensures DigitsValue(DecimalString(n)) == n
  {
    var r := DecimalString(n);
    if n >= 10 {
      assert r[..|r| - 1] == DecimalString(n / 10);
      DecimalStringValue(n / 10);
    }
  }
}
