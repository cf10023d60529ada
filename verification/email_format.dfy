/** The e-mail address check of the registration route: the regular
    expression `^[^\s@]+@[^\s@]+\.[^\s@]+$`, a plain structural description
    of the strings it accepts, and a single-pass checker. */
module EmailFormat {

  /** The characters JavaScript's `\s` class matches. */
  predicate IsWhitespace(c: char) {
    || c == ' ' || c == '\t' || c == '\n' || c == '\r'
    || c == '\U{000B}' || c == '\U{000C}' || c == '\U{00A0}' || c == '\U{1680}'
    || ('\U{2000}' <= c <= '\U{200A}')
    || c == '\U{2028}' || c == '\U{2029}' || c == '\U{202F}' || c == '\U{205F}'
    || c == '\U{3000}' || c == '\U{FEFF}'
  }

  /** One character of the class `[^\s@]`. */
  predicate PartChar(c: char) {
    !IsWhitespace(c) && c != '@'
  }

  /** A non-empty run of `[^\s@]+` covering the whole of `s`. */
  predicate Part(s: string) {
    |s| > 0 && forall k :: 0 <= k < |s| ==> PartChar(s[k])
  }

  /** The regular expression matches with the `@` at `i` and the `.` at `j`. */
  predicate MatchesAt(s: string, i: int, j: int) {
    && 0 <= i < j < |s|
    && s[i] == '@' && s[j] == '.'
    && Part(s[..i]) && Part(s[i + 1..j]) && Part(s[j + 1..])
  }

  /** `emailRegex.test(s)`: some choice of the `@` and of the `.` after it
      splits `s` into three `[^\s@]+` runs. */
  predicate MatchesEmailRegex(s: string) {
    exists i, j | 0 <= i < j < |s| :: MatchesAt(s, i, j)
  }

  /** The domain (the text after the `@`) has a `.` that is neither its first
      nor its last character. */
  predicate HasInnerDot(d: string) {
    exists k | 0 < k < |d| - 1 :: d[k] == '.'
  }

  /** The single `@` of `s` is at `i`, with a non-empty local part before it
      and a dotted domain after it. */
  predicate AtSplit(s: string, i: int) {
    && 0 < i < |s|
    && s[i] == '@'
    && (forall k :: 0 <= k < |s| && k != i ==> s[k] != '@')
    && HasInnerDot(s[i + 1..])
  }

  /** A plain description: no whitespace, exactly one `@`, a non-empty local
      part, and a dot inside the domain. */
  predicate WellShaped(s: string) {
    && (forall k :: 0 <= k < |s| ==> !IsWhitespace(s[k]))
    && exists i | 0 < i < |s| :: AtSplit(s, i)
  }

  lemma PartSlices(s: string, a: int, b: int)
    requires 0 <= a < b <= |s|
    requires forall k :: a <= k < b ==> PartChar(s[k])
    ensures Part(s[a..b])
  {
    forall k | 0 <= k < b - a
      ensures PartChar(s[a..b][k])
    {
      assert s[a..b][k] == s[a + k];
    }
  }

  /** The regular expression accepts exactly the well-shaped strings. */
  lemma RegexIsWellShaped(s: string)
    ensures MatchesEmailRegex(s) <==> WellShaped(s)
  {
    if MatchesEmailRegex(s) {
      var i, j :| 0 <= i < j < |s| && MatchesAt(s, i, j);
      forall k | 0 <= k < |s|
        ensures !IsWhitespace(s[k])
        ensures k != i ==> s[k] != '@'
      {
        if k < i {
          assert s[..i][k] == s[k];
        } else if i < k < j {
          assert s[i + 1..j][k - i - 1] == s[k];
        } else if j < k {
          assert s[j + 1..][k - j - 1] == s[k];
        }
      }
      assert |s[..i]| > 0;
      assert s[i + 1..][j - i - 1] == '.';
      assert HasInnerDot(s[i + 1..]);
      assert AtSplit(s, i);
    }
    if WellShaped(s) {
      var i :| 0 < i < |s| && AtSplit(s, i);
      var d := s[i + 1..];
      var k :| 0 < k < |d| - 1 && d[k] == '.';
      var j := i + 1 + k;
      assert s[j] == '.';
      PartSlices(s, 0, i);
      PartSlices(s, i + 1, j);
      PartSlices(s, j + 1, |s|);
      assert MatchesAt(s, i, j);
    }
  }

  /** Checks an address in one left-to-right pass: it notes whitespace,
      counts `@`s, remembers the first one, and the first `.` that comes
      more than one character after it. */
  method CheckEmail(s: string) returns (ok: bool)
    ensures ok <==> MatchesEmailRegex(s)
  {
    var ats := 0;
    var at := -1;
    var dot := -1;
    var blank := false;
    var k := 0;
    while k < |s|
      invariant 0 <= k <= |s|
      invariant blank <==> exists m :: 0 <= m < k && IsWhitespace(s[m])
      invariant ats == 0 ==> at == -1 && dot == -1 && forall m :: 0 <= m < k ==> s[m] != '@'
      invariant ats == 1 ==> (0 <= at < k && s[at] == '@'
                              && forall m :: 0 <= m < k && m != at ==> s[m] != '@')
      invariant ats >= 2 ==> (0 <= at < k && s[at] == '@'
                              && exists m :: at < m < k && s[m] == '@')
      invariant ats >= 1 && dot == -1 ==> forall m :: at + 1 < m < k ==> s[m] != '.'
      invariant dot >= 0 ==> (ats >= 1 && at + 1 < dot < k && s[dot] == '.'
                              && forall m :: at + 1 < m < dot ==> s[m] != '.')
    {
      var c := s[k];
      if IsWhitespace(c) {
        blank := true;
      }
      if c == '@' {
        if ats == 0 {
          at := k;
        }
        ats := if ats < 2 then ats + 1 else 2;
      }
      if c == '.' && ats >= 1 && at + 1 < k && dot == -1 {
        dot := k;
      }
      k := k + 1;
    }
    ok := !blank && ats == 1 && 0 < at && 0 <= dot < |s| - 1;
    RegexIsWellShaped(s);
    if ok {
      assert s[at + 1..][dot - at - 1] == '.';
      assert AtSplit(s, at);
    }
    if WellShaped(s) {
      var i :| 0 < i < |s| && AtSplit(s, i);
      var d := s[i + 1..];
      var dk :| 0 < dk < |d| - 1 && d[dk] == '.';
      assert s[i + 1 + dk] == '.';
      assert s[i] == '@';
      assert ats == 1 && at == i;
    }
  }
}
