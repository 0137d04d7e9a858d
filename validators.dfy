/**
 * The request validators: the e-mail pattern, the password length rule and
 * the first-missing-field check.
 */
module Validators {
  import opened Common
  import opened Lists

  /** The characters JavaScript's `\s` matches. */
  predicate Whitespace(c: char) {
    c == '\t' || c == '\n' || c == '\U{000B}' || c == '\U{000C}' || c == '\r' || c == ' '
    || c == '\U{00A0}' || c == '\U{1680}' || ('\U{2000}' <= c <= '\U{200A}')
    || c == '\U{2028}' || c == '\U{2029}' || c == '\U{202F}' || c == '\U{205F}'
    || c == '\U{3000}' || c == '\U{FEFF}'
  }

  predicate NoWhitespace(s: string) {
    forall i :: 0 <= i < |s| ==> !Whitespace(s[i])
  }

  /** `c` stands at position `i` of `s`. */
  predicate CharAt(s: string, i: int, c: char) {
    0 <= i < |s| && s[i] == c
  }

  /**
   * What `/^\S+@\S+\.\S+$/` accepts, read off the pattern: no whitespace
   * at all, an '@' with something before it, and a later '.' with
   * something between them and something after it.
   */
  predicate EmailShape(s: string) {
    NoWhitespace(s)
    && exists i, j :: 1 <= i && i + 1 < j && j + 1 < |s| && CharAt(s, i, '@') && CharAt(s, j, '.')
  }

  /** The last position of `c` in `s`, or -1. */
  function LastIndexOf(s: string, c: char): (k: int)
    ensures -1 <= k < |s|
    ensures k >= 0 ==> s[k] == c && forall j :: k < j < |s| ==> s[j] != c
    ensures k == -1 ==> forall j :: 0 <= j < |s| ==> s[j] != c
    decreases |s|
  {
    if |s| == 0 then -1
    else if s[|s| - 1] == c then |s| - 1
    else LastIndexOf(s[..|s| - 1], c)
  }

  /**
   * `validateEmail`: backtracking lets the first '@' after the first
   * character pair with the last '.' before the last character, so the
   * pattern matches exactly when those two are at least two apart.
   */
  function ValidateEmail(s: string): (ok: bool)
    ensures ok ==> NoWhitespace(s) && '@' in s && '.' in s
  {
    if |s| < 2 || !NoWhitespace(s) then false
    else
      var at := IndexWhere(s[1..], (c: char) => c == '@');
      var dot := LastIndexOf(s[..|s| - 1], '.');
      at >= 0 && at + 1 + 1 < dot
  }

  /** The decision procedure accepts exactly the strings of the pattern's shape. */
  lemma ValidateEmailIff(s: string)
    ensures ValidateEmail(s) <==> EmailShape(s)
  {
    if |s| >= 2 && NoWhitespace(s) {
      var at := IndexWhere(s[1..], (c: char) => c == '@');
      var dot := LastIndexOf(s[..|s| - 1], '.');
      if ValidateEmail(s) {
        assert s[1..][at] == s[at + 1];
        assert CharAt(s, at + 1, '@') && CharAt(s, dot, '.');
      }
      if EmailShape(s) {
        var i, j :| 1 <= i && i + 1 < j && j + 1 < |s| && CharAt(s, i, '@') && CharAt(s, j, '.');
        assert s[1..][i - 1] == '@';
        assert s[..|s| - 1][j] == '.';
      }
    }
  }

  /**
   * The shortest accepted address has five characters ("a@b.c" is one),
   * and an address with any whitespace in it is refused.
   */
  lemma EmailExamples(s: string, k: nat)
    ensures ValidateEmail("a@b.c")
    ensures !ValidateEmail("a@b.") && !ValidateEmail("@b.c") && !ValidateEmail("a@.c")
    ensures ValidateEmail(s) ==> |s| >= 5
    ensures k < |s| && Whitespace(s[k]) ==> !ValidateEmail(s)
  {
    ValidateEmailIff("a@b.c");
    assert CharAt("a@b.c", 1, '@') && CharAt("a@b.c", 3, '.');
    ValidateEmailIff("a@b.");
    ValidateEmailIff("@b.c");
    ValidateEmailIff("a@.c");
    ValidateEmailIff(s);
  }

  /** `validatePassword`: a password is present and has at least six characters. */
  function ValidatePassword(password: Option<string>): (ok: bool)
    ensures ok ==> password.Some? && |password.value| >= 6
    ensures password.Some? && |password.value| >= 6 ==> ok
  {
    password.Some? && password.value != "" && |password.value| >= 6
  }

  /** Lengthening an accepted password keeps it accepted; an absent or empty one is refused. */
  lemma PasswordRule(p: string, more: string)
    ensures ValidatePassword(Some(p)) ==> ValidatePassword(Some(p + more))
    ensures !ValidatePassword(None) && !ValidatePassword(Some(""))
  {
  }

  /**
   * `checkRequired`: the message for the first key, in iteration order,
   * whose value is falsy, or None when every value is truthy.
   */
  function CheckRequired(fields: seq<(string, Value)>): (r: Option<string>)
    ensures r.None? <==> forall i :: 0 <= i < |fields| ==> Truthy(fields[i].1)
    ensures r.Some? ==> exists i :: 0 <= i < |fields| && !Truthy(fields[i].1)
                          && r.value == fields[i].0 + " is required"
                          && forall j :: 0 <= j < i ==> Truthy(fields[j].1)
    decreases |fields|
  {
    if |fields| == 0 then None
    else if !Truthy(fields[0].1) then Some(fields[0].0 + " is required")
    else
      var r := CheckRequired(fields[1..]);
      assert r.Some? ==> exists i :: 1 <= i < |fields| && !Truthy(fields[i].1)
                          && r.value == fields[i].0 + " is required"
                          && forall j :: 0 <= j < i ==> Truthy(fields[j].1) by {
        if r.Some? {
          var i :| 0 <= i < |fields[1..]| && !Truthy(fields[1..][i].1)
                   && r.value == fields[1..][i].0 + " is required"
                   && forall j :: 0 <= j < i ==> Truthy(fields[1..][j].1);
          assert forall j :: 1 <= j < i + 1 ==> fields[j] == fields[1..][j - 1];
        }
      }
      r
  }
}
