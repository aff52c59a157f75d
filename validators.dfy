/** The request checks run before registration and login.  A field is a
    string or absent; the checks run in a fixed order and the first failing
    one decides the answer. */
module Validators {
  import opened Wrappers
  import opened JsValues

  /** The 400 answers of `validateRegister`, in the order they are checked */
  datatype RegisterError =
    | MissingFields        // "complete all fields"
    | NameTooShort
    | InvalidEmail
    | PasswordTooShort
    | PasswordNoUppercase

  /** `!v` is false: the field is present and not the empty string */
  predicate Present(v: Option<string>) {
    v.Some? && v.value != ""
  }

  /** A character of the class `[^\s@]` */
  predicate EmailChar(c: char) {
    !IsSpace(c) && c != '@'
  }

  predicate AllEmailChars(s: string) {
    forall i :: 0 <= i < |s| ==> EmailChar(s[i])
  }

  /** `EMAIL_REGEX = /^[^\s@]+@[^\s@]+\.[^\s@]+$/` read literally: the
      string splits at an `@` (position i) and a later `.` (position j)
      into three non-empty runs of characters that are neither white space
      nor `@` */
  ghost predicate MatchesEmailRegex(s: string) {
    exists i, j :: RegexSplit(s, i, j)
  }

  /** The match of the regular expression that puts the `@` at position i
      and the `.` at position j */
  predicate RegexSplit(s: string, i: int, j: int) {
    0 < i && i + 1 < j && j + 1 < |s| && s[i] == '@' && s[j] == '.'
    && AllEmailChars(s[..i]) && AllEmailChars(s[i + 1..j]) && AllEmailChars(s[j + 1..])
  }

  /** The email check as it can be computed: one `@`, a non-empty local
      part, no white space, and a domain with a `.` that is neither its
      first nor its last character */
  predicate IsValidEmail(s: string) {
    match IndexOf(s, '@')
    case None => false
    case Some(i) =>
      var domain := s[i + 1..];
      i > 0 && AllEmailChars(s[..i]) && AllEmailChars(domain)
      && exists k :: 0 < k < |domain| - 1 && domain[k] == '.'
  }

  /** Every address the computed check accepts matches the regular
      expression */
  lemma ValidEmailMatchesRegex(s: string)
    requires IsValidEmail(s)
    ensures MatchesEmailRegex(s)
  {
    var i := IndexOf(s, '@').value;
    var domain := s[i + 1..];
    var k :| 0 < k < |domain| - 1 && domain[k] == '.';
    var j := i + 1 + k;
    assert s[j] == '.';
    assert s[i + 1..j] == domain[..k];
    assert s[j + 1..] == domain[k + 1..];
    assert RegexSplit(s, i, j);
  }

  /** Every address the regular expression matches passes the computed
      check: the `@` the match uses is the first one */
  lemma RegexMatchIsValidEmail(s: string)
    requires MatchesEmailRegex(s)
    ensures IsValidEmail(s)
  {
    var i, j :| RegexSplit(s, i, j);
    FirstAt(s, i);
    var domain, k := s[i + 1..], j - i - 1;
    assert domain[..k] == s[i + 1..j];
    assert domain[k + 1..] == s[j + 1..];
    DomainChars(domain, k);
    assert 0 < k < |domain| - 1 && domain[k] == '.';
  }

  /** An `@` preceded only by email characters is the first `@` */
  lemma FirstAt(s: string, i: nat)
    requires i < |s| && s[i] == '@' && AllEmailChars(s[..i])
    ensures IndexOf(s, '@') == Some(i)
  {
    assert '@' !in s[..i] by {
      forall m | 0 <= m < i ensures s[..i][m] != '@' {
        assert EmailChar(s[..i][m]);
      }
    }
  }

  /** Two runs of email characters joined by a `.` form a run of email
      characters */
  lemma DomainChars(d: string, k: nat)
    requires k < |d| && d[k] == '.' && AllEmailChars(d[..k]) && AllEmailChars(d[k + 1..])
    ensures AllEmailChars(d)
  {
    forall m | 0 <= m < |d| ensures EmailChar(d[m]) {
      if m < k {
        assert d[m] == d[..k][m];
      } else if m > k {
        assert d[m] == d[k + 1..][m - k - 1];
      }
    }
  }

  /** The computed check accepts exactly the strings the regular expression
      matches */
  lemma EmailCheckMatchesRegex(s: string)
    ensures IsValidEmail(s) <==> MatchesEmailRegex(s)
  {
    if IsValidEmail(s) {
      ValidEmailMatchesRegex(s);
    }
    if MatchesEmailRegex(s) {
      RegexMatchIsValidEmail(s);
    }
  }

  /** `/[A-Z]/.test(s)` */
  predicate HasUppercase(s: string) {
    exists i :: 0 <= i < |s| && 'A' <= s[i] <= 'Z'
  }

  /** `validateRegister`: None when `next()` is called, otherwise the error
      of the first failing check */
  function ValidateRegister(name: Option<string>, email: Option<string>, password: Option<string>)
    : (r: Option<RegisterError>)
    ensures r.None? <==>
              && Present(name) && Present(email) && Present(password)
              && Utf16Length(Trim(name.value)) >= 2
              && MatchesEmailRegex(email.value)
              && Utf16Length(password.value) >= 8
              && HasUppercase(password.value)
    ensures r == Some(MissingFields) <==> !(Present(name) && Present(email) && Present(password))
    ensures r == Some(NameTooShort) <==>
              Present(name) && Present(email) && Present(password) && Utf16Length(Trim(name.value)) < 2
    ensures r == Some(InvalidEmail) <==>
              Present(name) && Present(email) && Present(password) && Utf16Length(Trim(name.value)) >= 2
              && !MatchesEmailRegex(email.value)
    ensures r == Some(PasswordTooShort) <==>
              Present(name) && Present(email) && Present(password) && Utf16Length(Trim(name.value)) >= 2
              && MatchesEmailRegex(email.value) && Utf16Length(password.value) < 8
    ensures r == Some(PasswordNoUppercase) <==>
              Present(name) && Present(email) && Present(password) && Utf16Length(Trim(name.value)) >= 2
              && MatchesEmailRegex(email.value) && Utf16Length(password.value) >= 8 && !HasUppercase(password.value)
  {
    if !Present(name) || !Present(email) || !Present(password) then Some(MissingFields)
    else if Utf16Length(Trim(name.value)) < 2 then Some(NameTooShort)
    else
      EmailCheckMatchesRegex(email.value);
      if !IsValidEmail(email.value) then Some(InvalidEmail)
      else if Utf16Length(password.value) < 8 then Some(PasswordTooShort)
      else if !HasUppercase(password.value) then Some(PasswordNoUppercase)
      else None
  }

  /** `validateLogin`: true when `next()` is called */
  function ValidateLogin(email: Option<string>, password: Option<string>): (ok: bool)
    ensures ok <==> Present(email) && Present(password)
  {
    Present(email) && Present(password)
  }

  /** Credentials accepted at registration are accepted by the login check */
  lemma RegisteredCredentialsPassLogin(name: Option<string>, email: Option<string>, password: Option<string>)
    requires ValidateRegister(name, email, password).None?
    ensures ValidateLogin(email, password)
  {
  }

  /** A name made only of white space is too short, however long it is */
  lemma BlankNameIsTooShort(name: string, email: string, password: string)
    requires name != "" && email != "" && password != ""
    requires forall i :: 0 <= i < |name| ==> IsSpace(name[i])
    ensures ValidateRegister(Some(name), Some(email), Some(password)) == Some(NameTooShort)
  {
    var t := Trim(name);
    var i := |name| - |TrimStart(name)|;
    assert t == name[i..i + |t|];
    assert t == "";
  }

  /** An accepted address has exactly one `@`: none after the first */
  lemma AcceptedEmailHasOneAt(s: string)
    requires MatchesEmailRegex(s)
    ensures IndexOf(s, '@').Some?
    ensures '@' !in s[IndexOf(s, '@').value + 1..]
  {
    EmailCheckMatchesRegex(s);
    var domain := s[IndexOf(s, '@').value + 1..];
    assert forall m :: 0 <= m < |domain| ==> EmailChar(domain[m]);
  }
}
