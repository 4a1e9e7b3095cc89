/**
 * Form-field rules shared by the registration wizard
 * (src/pages/RegisterPatientPage.tsx) and the staff login form
 * (src/pages/StaffLoginPage.tsx): JavaScript string length, and the email
 * pattern `^[^\s@]+@[^\s@]+\.[^\s@]+$` both pages test.
 */
module Validation {

  /** A JavaScript string's `length` counts UTF-16 code units: a character
      outside the Basic Multilingual Plane counts twice. */
  function JsLength(s: string): (n: nat)
    ensures |s| <= n <= 2 * |s|
  {
    if s == [] then 0
    else (if s[0] as int > 0xFFFF then 2 else 1) + JsLength(s[1..])
  }

  /** On text inside the Basic Multilingual Plane the two lengths agree. */
  lemma {:induction false} JsLengthOfBmp(s: string)
    requires forall k :: 0 <= k < |s| ==> s[k] as int <= 0xFFFF
    ensures JsLength(s) == |s|
  {
    if s != [] {
      JsLengthOfBmp(s[1..]);
    }
  }

  /** The characters the regular-expression class `\s` matches. */
  predicate IsJsWhitespace(c: char)
  {
    || c == '\t' || c == '\n' || c == '\U{000B}' || c == '\U{000C}' || c == '\r'
    || c == ' ' || c == '\U{00A0}' || c == '\U{1680}'
    || ('\U{2000}' <= c <= '\U{200A}')
    || c == '\U{2028}' || c == '\U{2029}' || c == '\U{202F}' || c == '\U{205F}'
    || c == '\U{3000}' || c == '\U{FEFF}'
  }

  /** The class `[^\s@]`. */
  predicate IsEmailChar(c: char)
  {
    !IsJsWhitespace(c) && c != '@'
  }

  /** The group `[^\s@]+`. */
  predicate IsEmailRun(t: string)
  {
    |t| > 0 && forall k :: 0 <= k < |t| ==> IsEmailChar(t[k])
  }

  /** The language of `^[^\s@]+@[^\s@]+\.[^\s@]+$`, read off the pattern. */
  ghost predicate MatchesEmailPattern(s: string)
  {
    exists a, b, c :: IsEmailRun(a) && IsEmailRun(b) && IsEmailRun(c) && s == a + "@" + b + "." + c
  }

  /** A dot somewhere strictly inside `d`. */
  predicate HasInnerDot(d: string)
  {
    exists k :: 0 < k < |d| - 1 && d[k] == '.'
  }

  /** The email test both pages run, decided without backtracking: no
      whitespace at all, an `@` with a non-empty local part before it and no
      other `@`, and a dot inside the domain after it. */
  predicate IsEmailValid(s: string)
  {
    exists i :: 0 < i < |s| && s[i] == '@' && IsEmailRun(s[..i]) && IsEmailRun(s[i + 1..]) && HasInnerDot(s[i + 1..])
  }

  /** A non-empty slice of a run is a run. */
  lemma RunSlice(t: string, lo: int, hi: int)
    requires IsEmailRun(t) && 0 <= lo < hi <= |t|
    ensures IsEmailRun(t[lo..hi])
  {
    forall m | 0 <= m < hi - lo ensures IsEmailChar(t[lo..hi][m]) {
      assert t[lo..hi][m] == t[lo + m];
    }
  }

  /** Every string the test accepts matches the pattern. */
  lemma EmailValidImpliesPattern(s: string)
    requires IsEmailValid(s)
    ensures MatchesEmailPattern(s)
  {
    var i :| 0 < i < |s| && s[i] == '@' && IsEmailRun(s[..i]) && IsEmailRun(s[i + 1..]) && HasInnerDot(s[i + 1..]);
    var d := s[i + 1..];
    var k :| 0 < k < |d| - 1 && d[k] == '.';
    var a, b, c := s[..i], d[..k], d[k + 1..];
    RunSlice(d, 0, k);
    RunSlice(d, k + 1, |d|);
    assert d[0..k] == b && d[k + 1..|d|] == c;
    assert d == b + "." + c;
    assert s == a + "@" + d;
    PatternWitness(s, a, b, c);
  }

  /** Three runs joined by `@` and `.` are a witness of the pattern. */
  lemma PatternWitness(s: string, a: string, b: string, c: string)
    requires IsEmailRun(a) && IsEmailRun(b) && IsEmailRun(c)
    requires s == a + "@" + (b + "." + c)
    ensures MatchesEmailPattern(s)
  {
    assert a + "@" + (b + "." + c) == a + "@" + b + "." + c;
  }

  /** Every string the pattern matches passes the test. */
  lemma PatternImpliesEmailValid(s: string)
    requires MatchesEmailPattern(s)
    ensures IsEmailValid(s)
  {
    var a, b, c :| IsEmailRun(a) && IsEmailRun(b) && IsEmailRun(c) && s == a + "@" + b + "." + c;
    var i := |a|;
    var d := b + "." + c;
    assert s == a + "@" + d;
    assert s[..i] == a;
    assert s[i + 1..] == d;
    assert IsEmailRun(d) by {
      forall m | 0 <= m < |d| ensures IsEmailChar(d[m]) {
        if m < |b| {
          assert d[m] == b[m];
        } else if m > |b| {
          assert d[m] == c[m - |b| - 1];
        }
      }
    }
    assert d[|b|] == '.';
  }

  /** The test accepts exactly the strings the pattern matches. */
  lemma EmailValidIffPattern(s: string)
    ensures IsEmailValid(s) <==> MatchesEmailPattern(s)
  {
    if IsEmailValid(s) {
      EmailValidImpliesPattern(s);
    }
    if MatchesEmailPattern(s) {
      PatternImpliesEmailValid(s);
    }
  }

  /** The address of the registration example is accepted. */
  lemma ExampleEmailIsValid()
    ensures IsEmailValid("a@b.com")
  {
    var s := "a@b.com";
    assert s[..1] == "a" && s[2..] == "b.com";
    assert "b.com"[1] == '.';
    assert HasInnerDot(s[2..]);
  }

  /** Whitespace anywhere, or a second `@`, is refused. */
  lemma EmailRejectsSpaceAndSecondAt(s: string, p: nat, q: nat)
    requires p < |s| && q < |s|
    ensures IsJsWhitespace(s[p]) ==> !IsEmailValid(s)
    ensures p < q && s[p] == '@' && s[q] == '@' ==> !IsEmailValid(s)
  {
    if IsEmailValid(s) {
      var i :| 0 < i < |s| && s[i] == '@' && IsEmailRun(s[..i]) && IsEmailRun(s[i + 1..]) && HasInnerDot(s[i + 1..]);
      assert forall m :: 0 <= m < |s| && m != i ==> IsEmailChar(s[m]) by {
        forall m | 0 <= m < |s| && m != i ensures IsEmailChar(s[m]) {
          if m < i {
            assert s[m] == s[..i][m];
          } else {
            assert s[m] == s[i + 1..][m - i - 1];
          }
        }
      }
    }
  }
}
