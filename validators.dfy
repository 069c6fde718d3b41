/** The shared form validators: e-mail and password, each returning "" or one message. */
module Validators {
  import JsString

  // ---------------------------------------------------------------------
  // The pattern ^[^\s@]+@[^\s@]+\.[^\s@]+$
  // ---------------------------------------------------------------------

  /** Characters of the class `[^\s@]`. */
  predicate Plain(t: string)
  {
    forall k :: 0 <= k < |t| ==> !JsString.IsSpace(t[k]) && t[k] != '@'
  }

  /** The pattern matches with its "@" at position at and its "." at position dot. */
  predicate EmailMatchAt(s: string, at: int, dot: int)
  {
    && 0 < at && at + 1 < dot && dot + 1 < |s|
    && s[at] == '@' && s[dot] == '.'
    && Plain(s[..at]) && Plain(s[at + 1..dot]) && Plain(s[dot + 1..])
  }

  /** The regular expression accepts s as a whole. */
  predicate MatchesEmailPattern(s: string)
  {
    exists at, dot :: 0 <= at < |s| && 0 <= dot < |s| && EmailMatchAt(s, at, dot)
  }

  // ---------------------------------------------------------------------
  // The same language described field by field
  // ---------------------------------------------------------------------

  /** d has a "." with at least one character before and after it. */
  predicate HasInnerDot(d: string)
  {
    exists p :: 0 < p < |d| - 1 && d[p] == '.'
  }

  /** s has its only "@" at position at, with something before it and an inner dot after it. */
  predicate SoleAtAt(s: string, at: int)
  {
    && 0 < at < |s| && s[at] == '@'
    && (forall k :: 0 <= k < |s| && k != at ==> s[k] != '@')
    && HasInnerDot(s[at + 1..])
  }

  /** No white space, exactly one "@" with a non-empty part before it, and a "." with a character on each side after it. */
  predicate WellFormedEmail(s: string)
  {
    JsString.NoSpace(s) && exists at :: 0 <= at < |s| && SoleAtAt(s, at)
  }

  /** A match of the pattern is a well-formed address. */
  lemma MatchIsWellFormed(s: string, at: int, dot: int)
    requires EmailMatchAt(s, at, dot)
    ensures WellFormedEmail(s)
  {
    forall k | 0 <= k < |s| ensures !JsString.IsSpace(s[k]) && (k != at ==> s[k] != '@') {
      if k < at {
        assert s[k] == s[..at][k];
      } else if at < k < dot {
        assert s[k] == s[at + 1..dot][k - at - 1];
      } else if dot < k {
        assert s[k] == s[dot + 1..][k - dot - 1];
      }
    }
    var d := s[at + 1..];
    assert d[dot - at - 1] == '.';
    assert HasInnerDot(d);
    assert SoleAtAt(s, at);
  }

  /** A well-formed address matches the pattern. */
  lemma WellFormedMatches(s: string, at: int)
    requires JsString.NoSpace(s) && SoleAtAt(s, at)
    ensures MatchesEmailPattern(s)
  {
    var d := s[at + 1..];
    var p :| 0 < p < |d| - 1 && d[p] == '.';
    var dot := at + 1 + p;
    assert s[dot] == '.';
    assert Plain(s[..at]);
    var middle, last := s[at + 1..dot], s[dot + 1..];
    forall k | 0 <= k < |middle| ensures !JsString.IsSpace(middle[k]) && middle[k] != '@' {
      assert middle[k] == s[at + 1 + k];
    }
    forall k | 0 <= k < |last| ensures !JsString.IsSpace(last[k]) && last[k] != '@' {
      assert last[k] == s[dot + 1 + k];
    }
    assert EmailMatchAt(s, at, dot);
  }

  /** The pattern accepts exactly the well-formed addresses. */
  lemma PatternMeansWellFormed(s: string)
    ensures MatchesEmailPattern(s) <==> WellFormedEmail(s)
  {
    if MatchesEmailPattern(s) {
      var at, dot :| EmailMatchAt(s, at, dot);
      MatchIsWellFormed(s, at, dot);
    }
    if WellFormedEmail(s) {
      var at :| SoleAtAt(s, at);
      WellFormedMatches(s, at);
    }
  }

  // ---------------------------------------------------------------------
  // validateEmail and validatePassword
  // ---------------------------------------------------------------------

  /** `validateEmail`: the empty check first, then the pattern. */
  function ValidateEmail(email: string): (r: string)
    ensures r == "Email is required" <==> email == ""
    ensures r == "Invalid email format" <==> email != "" && !WellFormedEmail(email)
    ensures r == "" <==> WellFormedEmail(email)
  {
    PatternMeansWellFormed(email);
    if email == "" then "Email is required"
    else if !MatchesEmailPattern(email) then "Invalid email format"
    else ""
  }

  /** `validatePassword`: the empty check first, then the length of at least six. */
  function ValidatePassword(password: string): (r: string)
    ensures r == "Password is required" <==> password == ""
    ensures r == "Password must be at least 6 characters long" <==> 0 < |password| < 6
    ensures r == "" <==> |password| >= 6
  {
    if password == "" then "Password is required"
    else if |password| < 6 then "Password must be at least 6 characters long"
    else ""
  }

  /** Two addresses the validator accepts and rejects, one for each reason. */
  lemma EmailExamples()
    ensures ValidateEmail("a@b.co") == ""
    ensures ValidateEmail("a@bco") == "Invalid email format"
    ensures ValidateEmail("a b@c.d") == "Invalid email format"
  {
    assert EmailMatchAt("a@b.co", 1, 3);
    var s := "a@bco";
    forall at | 0 <= at < |s| ensures !SoleAtAt(s, at) {
      if at == 1 {
        var d := s[2..];
        assert d == "bco";
        assert !HasInnerDot(d);
      }
    }
    assert JsString.IsSpace("a b@c.d"[1]);
  }
}
