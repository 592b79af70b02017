/**
 * The two identifier formats the authentication code validates: the
 * ten-digit phone number `/^[0-9]{10}$/` and the e-mail pattern
 * `/^[^\s@]+@[^\s@]+\.[^\s@]+$/`.
 */
module Validation {
  import opened Strings

  /** `/^[0-9]{10}$/.test(s)`. */
  predicate IsTenDigitPhone(s: string) {
    |s| == 10 && AllDigits(s)
  }

  /** One character of the class `[^\s@]`. */
  predicate IsEmailChar(c: char) {
    !IsWhitespace(c) && c != '@'
  }

  /** Every character of s is in the class `[^\s@]`. */
  predicate AllEmailChars(s: string) {
    forall i :: 0 <= i < |s| ==> IsEmailChar(s[i])
  }

  /** `[^\s@]+` spanning the whole of s. */
  predicate IsEmailRun(s: string) {
    |s| > 0 && AllEmailChars(s)
  }

  /** `[^\s@]+\.[^\s@]+` spanning the whole of d, with the chosen dot at j. */
  predicate DomainMatchesAt(d: string, j: int) {
    0 <= j < |d| && d[j] == '.' && IsEmailRun(d[..j]) && IsEmailRun(d[j + 1..])
  }

  /**
   * The e-mail regular expression read literally: some position a holds the
   * `@`, a non-empty run of `[^\s@]` precedes it, and the rest is a run, a
   * `\.` and a run (the backtracking choice of dot is the witness j).
   */
  ghost predicate MatchesEmailPattern(s: string) {
    exists a :: 0 < a < |s| && s[a] == '@' && IsEmailRun(s[..a]) && DomainMatches(s[a + 1..])
  }

  /** `[^\s@]+\.[^\s@]+` spanning the whole of d, for some choice of dot. */
  ghost predicate DomainMatches(d: string) {
    exists j :: DomainMatchesAt(d, j)
  }

  /** d contains a `.` that is neither its first nor its last character. */
  predicate HasInnerDot(d: string) {
    exists j :: 0 < j < |d| - 1 && d[j] == '.'
  }

  /**
   * The text after the first `@` has an inner dot: a `.` past the
   * character right after the `@` and before the last character of s.
   */
  predicate DotInDomain(s: string) {
    exists j :: IndexOf(s, '@') + 1 < j < |s| - 1 && s[j] == '.'
  }

  predicate NoWhitespace(s: string) {
    forall i :: 0 <= i < |s| ==> !IsWhitespace(s[i])
  }

  /**
   * The e-mail check stated by hand: exactly one `@`, no whitespace
   * anywhere, a non-empty part before the `@`, and a dot inside the part
   * after it.
   */
  predicate IsEmail(s: string) {
    && Count(s, '@') == 1
    && NoWhitespace(s)
    && IndexOf(s, '@') > 0
    && DotInDomain(s)
  }

  /** Splitting s around position a, the `@` count adds up. */
  lemma CountAround(s: string, a: nat)
    requires a < |s|
    ensures Count(s, '@') == Count(s[..a], '@') + (if s[a] == '@' then 1 else 0) + Count(s[a + 1..], '@')
  {
    var pre, mid, post := s[..a], [s[a]], s[a + 1..];
    assert s == (pre + mid) + post;
    CountAppend(pre + mid, post, '@');
    CountAppend(pre, mid, '@');
    assert mid[1..] == [];
    assert Count(mid, '@') == (if s[a] == '@' then 1 else 0);
  }

  /** A run split at a dot: both sides and the dot are `[^\s@]` characters. */
  lemma DomainAllEmailChars(d: string, j: int)
    requires DomainMatchesAt(d, j)
    ensures AllEmailChars(d)
  {
    forall i | 0 <= i < |d| ensures IsEmailChar(d[i]) {
      if i < j {
        assert d[i] == d[..j][i];
      } else if i > j {
        assert d[i] == d[j + 1..][i - (j + 1)];
      }
    }
  }

  /** A domain free of `@` and whitespace with an inner dot matches the domain half. */
  lemma InnerDotMatches(d: string) returns (j: int)
    requires AllEmailChars(d) && HasInnerDot(d)
    ensures DomainMatchesAt(d, j)
  {
    j :| 0 < j < |d| - 1 && d[j] == '.';
    assert forall i :: 0 <= i < j ==> d[..j][i] == d[i];
    assert forall i :: j + 1 <= i < |d| ==> d[j + 1..][i - (j + 1)] == d[i];
  }

  /** The hand-written check accepts exactly what the regular expression accepts. */
  lemma EmailCheckMatchesPattern(s: string)
    ensures IsEmail(s) <==> MatchesEmailPattern(s)
  {
    if IsEmail(s) {
      EmailToPattern(s);
    }
    if MatchesEmailPattern(s) {
      PatternToEmail(s);
    }
  }

  lemma EmailToPattern(s: string)
    requires IsEmail(s)
    ensures MatchesEmailPattern(s)
  {
    var a := IndexOf(s, '@');
    if a == |s| {
      CountZero(s, '@');
      assert false;
    }
    CountAround(s, a);
    CountZero(s[..a], '@');
    var dom := s[a + 1..];
    assert Count(dom, '@') == 0;
    CountZero(dom, '@');
    assert AllEmailChars(s[..a]) by {
      assert forall k :: 0 <= k < a ==> s[..a][k] == s[k];
    }
    assert AllEmailChars(dom) by {
      forall k | 0 <= k < |dom| ensures IsEmailChar(dom[k]) {
        assert dom[k] == s[a + 1 + k];
      }
    }
    var k :| a + 1 < k < |s| - 1 && s[k] == '.';
    assert dom[k - (a + 1)] == '.';
    var j := InnerDotMatches(dom);
  }

  lemma PatternToEmail(s: string)
    requires MatchesEmailPattern(s)
    ensures IsEmail(s)
  {
    var a :| 0 < a < |s| && s[a] == '@' && IsEmailRun(s[..a]) && DomainMatches(s[a + 1..]);
    var dom := s[a + 1..];
    var j :| DomainMatchesAt(dom, j);
    DomainAllEmailChars(dom, j);
    OnlyAtIsAt(s, a);
    CountOneAt(s, a);
    assert s[a + 1 + j] == dom[j];
  }

  /** When everything around position a is `[^\s@]`, s has no whitespace and its only `@` is at a. */
  lemma OnlyAtIsAt(s: string, a: nat)
    requires a < |s| && s[a] == '@'
    requires AllEmailChars(s[..a]) && AllEmailChars(s[a + 1..])
    ensures NoWhitespace(s)
    ensures forall k :: 0 <= k < |s| && k != a ==> s[k] != '@'
  {
    forall k | 0 <= k < |s| && k != a ensures IsEmailChar(s[k]) {
      if k < a {
        assert s[k] == s[..a][k];
      } else {
        assert s[k] == s[a + 1..][k - (a + 1)];
      }
    }
  }

  /** A string whose only `@` is at a has exactly one `@`, and its first `@` is at a. */
  lemma CountOneAt(s: string, a: nat)
    requires a < |s| && s[a] == '@'
    requires forall k :: 0 <= k < |s| && k != a ==> s[k] != '@'
    ensures Count(s, '@') == 1 && IndexOf(s, '@') == a
  {
    CountAround(s, a);
    assert forall k :: 0 <= k < a ==> s[..a][k] == s[k];
    CountZero(s[..a], '@');
    assert forall k :: a + 1 <= k < |s| ==> s[a + 1..][k - (a + 1)] == s[k];
    CountZero(s[a + 1..], '@');
  }

  /** An address assembled as local@left.right from three `[^\s@]+` runs passes the check. */
  lemma RunsMakeEmail(local: string, left: string, right: string)
    requires IsEmailRun(local) && IsEmailRun(left) && IsEmailRun(right)
    ensures IsEmail(local + "@" + left + "." + right)
  {
    var dom := left + "." + right;
    var s := local + "@" + dom;
    assert s == local + "@" + left + "." + right;
    assert s[..|local|] == local;
    assert s[|local| + 1..] == dom;
    assert dom[..|left|] == left && dom[|left| + 1..] == right;
    assert DomainMatchesAt(dom, |left|);
    assert MatchesEmailPattern(s);
    PatternToEmail(s);
  }
}
