/**
 * The email address pattern of the registration form, written out as
 * predicates. The pattern is
 *
 *   ^( dot-atom | quoted-string ) @ ( address-literal | host-name )$
 *
 * where a dot-atom is one or more runs of "atom" characters separated by
 * single dots, a quoted string is `"`, at least one character other than a
 * line terminator, `"`, an address literal is four groups of one to three
 * digits separated by dots inside brackets, and a host name is one or more
 * labels of ASCII letters, digits and hyphens, each followed by a dot, then a
 * top-level part of at least two ASCII letters.
 */
module EmailPattern {

  /** The characters `\s` matches in a JavaScript regular expression. */
  predicate IsJsWhitespace(c: char)
  {
    || c == '\t' || c == '\n' || c == '\U{B}' || c == '\U{C}' || c == '\r' || c == ' '
    || c == '\U{A0}' || c == '\U{1680}' || ('\U{2000}' <= c <= '\U{200A}')
    || c == '\U{2028}' || c == '\U{2029}' || c == '\U{202F}' || c == '\U{205F}'
    || c == '\U{3000}' || c == '\U{FEFF}'
  }

  /** The characters `.` does not match (no `s` flag). */
  predicate IsLineTerminator(c: char)
  {
    c == '\n' || c == '\r' || c == '\U{2028}' || c == '\U{2029}'
  }

  /** The class `[^<>()[\]\\.,;:\s@"]`. */
  predicate IsAtomChar(c: char)
  {
    c !in "<>()[]\\.,;:@\"" && !IsJsWhitespace(c)
  }

  predicate IsAsciiLetter(c: char)
  {
    ('a' <= c <= 'z') || ('A' <= c <= 'Z')
  }

  predicate IsDigit(c: char)
  {
    '0' <= c <= '9'
  }

  /** The class `[a-zA-Z\-0-9]`. */
  predicate IsLabelChar(c: char)
  {
    IsAsciiLetter(c) || IsDigit(c) || c == '-'
  }

  /** `[^...]+(\.[^...]+)*`: atom runs separated by single dots. */
  predicate IsDotAtom(s: string)
  {
    && |s| > 0 && s[0] != '.' && s[|s| - 1] != '.'
    && (forall i :: 0 <= i < |s| ==> s[i] == '.' || IsAtomChar(s[i]))
    && (forall i :: 0 <= i < |s| - 1 && s[i] == '.' ==> s[i + 1] != '.')
  }

  /** `".+"`. */
  predicate IsQuotedString(s: string)
  {
    && |s| >= 3 && s[0] == '"' && s[|s| - 1] == '"'
    && forall i :: 0 < i < |s| - 1 ==> !IsLineTerminator(s[i])
  }

  predicate AllDigits(s: string)
  {
    forall i :: 0 <= i < |s| ==> IsDigit(s[i])
  }

  /** The number of leading digits of `s`. */
  function DigitRun(s: string): (k: nat)
    ensures k <= |s|
    ensures AllDigits(s[..k]) && (k < |s| ==> !IsDigit(s[k]))
  {
    if s == [] || !IsDigit(s[0]) then 0
    else
      var k := 1 + DigitRun(s[1..]);
      assert s[..k] == [s[0]] + s[1..][..k - 1];
      k
  }

  /**
   * `[0-9]{1,3}(\.[0-9]{1,3}){n-1}` for `n >= 1`: each group is the run of
   * digits up to the next dot or the end.
   */
  predicate DigitGroups(s: string, n: nat)
    decreases n
  {
    var k := DigitRun(s);
    1 <= k <= 3 && (if n <= 1 then k == |s| else k < |s| && s[k] == '.' && DigitGroups(s[k + 1..], n - 1))
  }

  /** `\[[0-9]{1,3}\.[0-9]{1,3}\.[0-9]{1,3}\.[0-9]{1,3}\]`. */
  predicate IsAddressLiteral(s: string)
  {
    |s| >= 2 && s[0] == '[' && s[|s| - 1] == ']' && DigitGroups(s[1..|s| - 1], 4)
  }

  /** `([a-zA-Z\-0-9]+\.)+`: non-empty labels, each closed by a dot. */
  predicate IsDottedLabels(s: string)
  {
    && |s| >= 2 && s[0] != '.' && s[|s| - 1] == '.'
    && (forall i :: 0 <= i < |s| ==> s[i] == '.' || IsLabelChar(s[i]))
    && (forall i :: 0 <= i < |s| - 1 && s[i] == '.' ==> s[i + 1] != '.')
  }

  /** `[a-zA-Z]{2,}`. */
  predicate IsTopLevel(s: string)
  {
    |s| >= 2 && forall i :: 0 <= i < |s| ==> IsAsciiLetter(s[i])
  }

  /** `([a-zA-Z\-0-9]+\.)+[a-zA-Z]{2,}`: split after the dot that starts the top-level part. */
  predicate IsHostName(s: string)
  {
    exists k :: 0 < k < |s| && s[k] == '.' && IsDottedLabels(s[..k + 1]) && IsTopLevel(s[k + 1..])
  }

  /** The whole pattern, anchored at both ends: split at the `@` between local part and domain. */
  predicate Matches(s: string)
  {
    exists i :: 0 <= i < |s| && s[i] == '@'
      && (IsDotAtom(s[..i]) || IsQuotedString(s[..i]))
      && (IsAddressLiteral(s[i + 1..]) || IsHostName(s[i + 1..]))
  }

  /** When `s` holds a single `@`, the pattern must split there. */
  lemma MatchesAtSoleAt(s: string, p: nat)
    requires p < |s| && s[p] == '@'
    requires forall i :: 0 <= i < |s| && i != p ==> s[i] != '@'
    ensures Matches(s) <==>
      && (IsDotAtom(s[..p]) || IsQuotedString(s[..p]))
      && (IsAddressLiteral(s[p + 1..]) || IsHostName(s[p + 1..]))
  {
  }

  /** A domain without a dot is no host name. */
  lemma HostNameNeedsDot(d: string)
    requires forall k :: 0 <= k < |d| ==> d[k] != '.'
    ensures !IsHostName(d)
  {
  }

  /** The pattern matches when the `@` at `i` splits `s` into an accepted local part and domain. */
  lemma MatchesAt(s: string, i: nat)
    requires i < |s| && s[i] == '@'
    requires IsDotAtom(s[..i]) || IsQuotedString(s[..i])
    requires IsAddressLiteral(s[i + 1..]) || IsHostName(s[i + 1..])
    ensures Matches(s)
  {
  }

  /** The form's own example address is accepted. */
  lemma ExampleAddressMatches(s: string)
    requires s == "xyz@gmail.com"
    ensures Matches(s)
  {
    assert s[3] == '@';
    assert IsDotAtom(s[..3]) by {
      assert s[..3] == "xyz";
    }
    assert IsHostName(s[4..]) by {
      var d := s[4..];
      assert d == "gmail.com";
      assert d[5] == '.';
      assert IsDottedLabels(d[..6]) by { assert d[..6] == "gmail."; }
      assert IsTopLevel(d[6..]) by { assert d[6..] == "com"; }
    }
    MatchesAt(s, 3);
  }

  /** Four digit groups in brackets form an address literal. */
  lemma Bracketed(g: string)
    requires DigitGroups(g, 4)
    ensures IsAddressLiteral("[" + g + "]")
  {
    var d := "[" + g + "]";
    assert d[1..|d| - 1] == g;
  }

  lemma SplitAtSign(local: string, domain: string)
    ensures var s := local + "@" + domain;
      s[|local|] == '@' && s[..|local|] == local && s[|local| + 1..] == domain
  {
  }

  /** An accepted local part, `@`, and an accepted domain form an accepted address. */
  lemma MatchesJoined(local: string, domain: string)
    requires IsDotAtom(local) || IsQuotedString(local)
    requires IsAddressLiteral(domain) || IsHostName(domain)
    ensures Matches(local + "@" + domain)
  {
    SplitAtSign(local, domain);
    MatchesAt(local + "@" + domain, |local|);
  }

  /** A dot-atom, `@`, and four bracketed digit groups form an accepted address. */
  lemma AddressLiteralMatches(local: string, g: string)
    requires IsDotAtom(local) && DigitGroups(g, 4)
    ensures Matches(local + "@" + ("[" + g + "]"))
  {
    Bracketed(g);
    MatchesJoined(local, "[" + g + "]");
  }

  /** A string without `@` never matches. */
  lemma WithoutAtNoMatch(s: string)
    requires forall i :: 0 <= i < |s| ==> s[i] != '@'
    ensures !Matches(s)
  {
  }

  /** A domain without a dot and without brackets is rejected: "xyz@gmail" is not an address. */
  lemma DomainNeedsTopLevel()
    ensures !Matches("xyz@gmail")
  {
    var s := "xyz@gmail";
    var d := "gmail";
    assert s[4..] == d;
    assert forall k :: 0 <= k < |d| ==> d[k] != '.';
    HostNameNeedsDot(d);
    assert !IsAddressLiteral(d) by { assert d[0] == 'g'; }
    assert forall i :: 0 <= i < |s| && i != 3 ==> s[i] != '@';
    MatchesAtSoleAt(s, 3);
  }

  /** Whitespace in an unquoted local part is rejected. */
  lemma SpaceInLocalPartNoMatch()
    ensures !Matches("x y@gmail.com")
  {
    var s := "x y@gmail.com";
    var local := s[..3];
    assert local == "x y";
    assert !IsAtomChar(local[1]) && local[1] != '.';
    assert !IsQuotedString(local);
    MatchesAtSoleAt(s, 3);
  }
}
