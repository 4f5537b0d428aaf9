/**
 * `validateEmail`, written identically in frontend/src/pages/Register.tsx
 * and frontend/src/pages/Login.tsx: a test of the regular expression
 * `^[^\s@]+@[^\s@]+\.[^\s@]+$`.
 */
module EmailRule {
  import opened JsString

  /** A character of the class `[^\s@]`. */
  predicate PlainChar(c: char) {
    !IsSpace(c) && c != '@'
  }

  predicate AllPlain(s: string) {
    forall k :: 0 <= k < |s| ==> PlainChar(s[k])
  }

  /** What the regular expression matches, read off its structure: a
      non-empty run of plain characters, `@`, a non-empty run, a `.`, and a
      non-empty run to the end. */
  ghost predicate MatchesEmailPattern(s: string) {
    exists a, d :: 0 < a && a + 1 < d && d + 1 < |s| && s[a] == '@' && s[d] == '.'
      && AllPlain(s[..a]) && AllPlain(s[a + 1..d]) && AllPlain(s[d + 1..])
  }

  /** The position of the first `c` in `s`. */
  function FirstIndex(s: string, c: char): (i: nat)
    requires c in s
    ensures i < |s| && s[i] == c
    ensures forall k :: 0 <= k < i ==> s[k] != c
  {
    if s[0] == c then 0 else 1 + FirstIndex(s[1..], c)
  }

  /** The test, done the way one reads the expression: split at the first
      `@`; the part before it must be plain and non-empty, the part after it
      plain with a `.` strictly inside it. */
  function ValidateEmail(s: string): (r: bool)
    ensures r ==> |s| >= 5 && PlainChar(s[0]) && PlainChar(s[|s| - 1])
  {
    && '@' in s
    && var a := FirstIndex(s, '@');
       var domain := s[a + 1..];
       && a > 0 && AllPlain(s[..a])
       && |domain| >= 3 && AllPlain(domain) && '.' in domain[1..|domain| - 1]
       && assert s[0] == s[..a][0] && s[|s| - 1] == domain[|domain| - 1];
          true
  }

  /** Every string the test accepts matches the regular expression. */
  lemma ValidateEmailSound(s: string)
    requires ValidateEmail(s)
    ensures MatchesEmailPattern(s)
  {
    var a := FirstIndex(s, '@');
    var domain := s[a + 1..];
    var inner := domain[1..|domain| - 1];
    var j :| 0 <= j < |inner| && inner[j] == '.';
    var d := a + 2 + j;
    assert s[d] == '.';
    assert s[a + 1..d] == domain[..j + 1];
    assert s[d + 1..] == domain[j + 2..];
    assert AllPlain(domain[..j + 1]) && AllPlain(domain[j + 2..]);
  }

  /** A plain prefix holds no `@`. */
  lemma PlainPrefix(s: string, a: nat)
    requires a <= |s| && AllPlain(s[..a])
    ensures forall k :: 0 <= k < a ==> s[k] != '@'
  {
    forall k | 0 <= k < a ensures s[k] != '@' {
      assert s[..a][k] == s[k];
    }
  }

  /** Plain runs joined by a plain character form a plain run. */
  lemma AllPlainJoin(x: string, c: char, y: string)
    requires AllPlain(x) && PlainChar(c) && AllPlain(y)
    ensures AllPlain(x + [c] + y)
  {
    var z := x + [c] + y;
    forall k | 0 <= k < |z| ensures PlainChar(z[k]) {
      if k < |x| {
        assert z[k] == x[k];
      } else if k > |x| {
        assert z[k] == y[k - |x| - 1];
      }
    }
  }

  /** The test accepts a string split at positions `a` and `d` the way the
      regular expression splits it. */
  lemma ValidateEmailAt(s: string, a: nat, d: nat)
    requires 0 < a && a + 1 < d && d + 1 < |s| && s[a] == '@' && s[d] == '.'
    requires AllPlain(s[..a]) && AllPlain(s[a + 1..d]) && AllPlain(s[d + 1..])
    ensures ValidateEmail(s)
  {
    assert '@' in s;
    var i := FirstIndex(s, '@');
    PlainPrefix(s, a);
    assert i == a;
    var domain := s[a + 1..];
    assert domain == s[a + 1..d] + [s[d]] + s[d + 1..];
    AllPlainJoin(s[a + 1..d], s[d], s[d + 1..]);
    assert domain[1..|domain| - 1][d - a - 2] == '.';
  }

  /** Every string the regular expression matches passes the test. */
  lemma ValidateEmailComplete(s: string)
    requires MatchesEmailPattern(s)
    ensures ValidateEmail(s)
  {
    var a, d :| 0 < a && a + 1 < d && d + 1 < |s| && s[a] == '@' && s[d] == '.'
      && AllPlain(s[..a]) && AllPlain(s[a + 1..d]) && AllPlain(s[d + 1..]);
    ValidateEmailAt(s, a, d);
  }

  /** The test accepts exactly the strings the regular expression matches. */
  lemma ValidateEmailIsPattern(s: string)
    ensures ValidateEmail(s) <==> MatchesEmailPattern(s)
  {
    if ValidateEmail(s) {
      ValidateEmailSound(s);
    }
    if MatchesEmailPattern(s) {
      ValidateEmailComplete(s);
    }
  }

  /** What the pattern says about an accepted address: no white space
      anywhere, exactly one `@`, a non-empty local part, and a domain with a
      `.` that has text on both sides. */
  lemma ValidEmailShape(s: string)
    requires ValidateEmail(s)
    ensures forall k :: 0 <= k < |s| ==> !IsSpace(s[k])
    ensures exists a :: 0 < a < |s| && s[a] == '@' && forall k :: 0 <= k < |s| && s[k] == '@' ==> k == a
  {
    var a := FirstIndex(s, '@');
    var domain := s[a + 1..];
    forall k | 0 <= k < |s| ensures !IsSpace(s[k]) && (s[k] == '@' ==> k == a) {
      if k < a {
        assert s[k] == s[..a][k];
      } else if k > a {
        assert s[k] == domain[k - a - 1];
      }
    }
  }
}
