/**
 * The login screen: an email and password form that either signs in or
 * signs up depending on its mode, guarded by an email pattern. The answer of
 * the authentication service is a parameter of the method that calls it.
 */
module Login {
  import opened Base
  import opened JsText

  /** No white space and no `@`: the class `[^\s@]`. */
  predicate PlainChars(t: string) {
    forall k :: 0 <= k < |t| ==> !IsSpace(t[k]) && t[k] != '@'
  }

  /**
   * `/^[^\s@]+@[^\s@]+\.[^\s@]+$/`: three non-empty runs of plain characters,
   * the first two separated by `@`, the last two by `.`.
   */
  ghost predicate EmailPattern(s: string) {
    exists i, j :: 0 < i && i + 1 < j && j + 1 < |s| && s[i] == '@' && s[j] == '.'
      && PlainChars(s[..i]) && PlainChars(s[i + 1..j]) && PlainChars(s[j + 1..])
  }

  /** The index of the first `c` in `s`, or `|s|` when there is none. */
  function IndexOf(s: string, c: char): (i: nat)
    ensures i <= |s| && c !in s[..i]
    ensures i < |s| ==> s[i] == c
  {
    if s == [] then 0
    else if s[0] == c then 0
    else
      var i := 1 + IndexOf(s[1..], c);
      assert s[..i] == [s[0]] + s[1..][..i - 1];
      i
  }

  predicate NoSpace(s: string) {
    forall k :: 0 <= k < |s| ==> !IsSpace(s[k])
  }

  /**
   * What the pattern asks, written as checks: no white space, exactly one
   * `@`, something before it, and a `.` after it that is neither the first
   * nor the last character of the part after it.
   */
  predicate EmailShape(s: string) {
    var at := IndexOf(s, '@');
    && NoSpace(s) && 0 < at < |s| && '@' !in s[at + 1..]
    && exists k | at + 1 < k < |s| - 1 :: s[k] == '.'
  }

  /** `validateEmail(email)`: the pattern tested on the lower-cased text. */
  predicate ValidateEmail(email: string) {
    EmailShape(ToLower(email))
  }

  lemma PlainSlice(s: string, a: int, b: int)
    requires 0 <= a <= b <= |s|
    requires NoSpace(s) && forall k :: a <= k < b ==> s[k] != '@'
    ensures PlainChars(s[a..b])
  {
    forall k | 0 <= k < b - a ensures !IsSpace(s[a..b][k]) && s[a..b][k] != '@' {
      assert s[a..b][k] == s[a + k];
    }
  }

  /** Text that passes the checks matches the pattern. */
  lemma EmailShapeMatches(s: string)
    requires EmailShape(s)
    ensures EmailPattern(s)
  {
    var i := IndexOf(s, '@');
    var j :| i + 1 < j < |s| - 1 && s[j] == '.';
    assert forall k :: 0 <= k < i ==> s[k] != '@' by {
      forall k | 0 <= k < i ensures s[k] != '@' {
        assert s[..i][k] == s[k];
      }
    }
    assert forall k :: i < k < |s| ==> s[k] != '@' by {
      forall k | i < k < |s| ensures s[k] != '@' {
        assert s[i + 1..][k - i - 1] == s[k];
      }
    }
    PlainSlice(s, 0, i);
    PlainSlice(s, i + 1, j);
    PlainSlice(s, j + 1, |s|);
    assert s[..i] == s[0..i];
    assert s[j + 1..] == s[j + 1..|s|];
  }

  lemma PlainAt(s: string, a: int, b: int, k: int)
    requires 0 <= a <= k < b <= |s| && PlainChars(s[a..b])
    ensures !IsSpace(s[k]) && s[k] != '@'
  {
    assert s[a..b][k - a] == s[k];
  }

  /** Text that matches the pattern passes the checks. */
  lemma PatternHasEmailShape(s: string)
    requires EmailPattern(s)
    ensures EmailShape(s)
  {
    var i, j :| 0 < i && i + 1 < j && j + 1 < |s| && s[i] == '@' && s[j] == '.'
      && PlainChars(s[..i]) && PlainChars(s[i + 1..j]) && PlainChars(s[j + 1..]);
    assert s[..i] == s[0..i] && s[j + 1..] == s[j + 1..|s|];
    forall k | 0 <= k < |s| && k != i && k != j
      ensures !IsSpace(s[k]) && s[k] != '@'
    {
      if k < i {
        PlainAt(s, 0, i, k);
      } else if k < j {
        PlainAt(s, i + 1, j, k);
      } else {
        PlainAt(s, j + 1, |s|, k);
      }
    }
    assert '@' !in s[..i];
    assert IndexOf(s, '@') == i;
  }

  /** The checks are the pattern, in both directions. */
  lemma EmailShapeIsPattern(s: string)
    ensures EmailShape(s) <==> EmailPattern(s)
  {
    if EmailShape(s) {
      EmailShapeMatches(s);
    }
    if EmailPattern(s) {
      PatternHasEmailShape(s);
    }
  }

  /** Lower-casing keeps white space, `@` and `.` where they were. */
  lemma LowerKeepsMarks(s: string)
    ensures var t := ToLower(s);
      forall k :: 0 <= k < |s| ==>
        && (IsSpace(t[k]) <==> IsSpace(s[k])) && (t[k] == '@' <==> s[k] == '@') && (t[k] == '.' <==> s[k] == '.')
  {
  }

  lemma LowerPrefixHasAt(s: string, n: nat)
    requires n <= |s|
    ensures '@' in ToLower(s)[..n] <==> '@' in s[..n]
  {
    var t := ToLower(s);
    LowerKeepsMarks(s);
    if '@' in t[..n] {
      var m :| 0 <= m < n && t[..n][m] == '@';
      assert s[..n][m] == s[m];
    }
    if '@' in s[..n] {
      var m :| 0 <= m < n && s[..n][m] == '@';
      assert t[..n][m] == t[m];
    }
  }

  lemma LowerSuffixHasAt(s: string, n: nat)
    requires n <= |s|
    ensures '@' in ToLower(s)[n..] <==> '@' in s[n..]
  {
    var t := ToLower(s);
    LowerKeepsMarks(s);
    if '@' in t[n..] {
      var m :| 0 <= m < |s| - n && t[n..][m] == '@';
      assert s[n..][m] == s[n + m];
    }
    if '@' in s[n..] {
      var m :| 0 <= m < |s| - n && s[n..][m] == '@';
      assert t[n..][m] == t[n + m];
    }
  }

  /** Lower-casing touches only `A`–`Z`, so it neither makes nor breaks an address. */
  lemma ToLowerKeepsShape(s: string)
    ensures EmailShape(ToLower(s)) <==> EmailShape(s)
  {
    var t := ToLower(s);
    LowerKeepsMarks(s);
    var a, b := IndexOf(t, '@'), IndexOf(s, '@');
    LowerPrefixHasAt(s, a);
    LowerPrefixHasAt(s, b);
    assert a == b;
    if a < |s| {
      LowerSuffixHasAt(s, a + 1);
    }
  }

  /**
   * `validateEmail` accepts exactly the texts of the pattern, whatever their
   * letter case: upper-case letters are plain characters like any other.
   */
  lemma ValidateEmailIsPattern(email: string)
    ensures ValidateEmail(email) <==> EmailPattern(email)
    ensures ValidateEmail(ToLower(email)) == ValidateEmail(email)
  {
    ToLowerKeepsShape(email);
    ToLowerKeepsShape(ToLower(email));
    EmailShapeIsPattern(email);
  }

  /** An address in mixed case passes: upper-case letters are plain characters. */
  lemma MixedCaseEmailPasses()
    ensures ValidateEmail("Ana@Site.com")
  {
    var s := "Ana@Site.com";
    assert PlainChars(s[..3]) by {
      assert s[..3] == "Ana";
    }
    assert PlainChars(s[4..8]) by {
      assert s[4..8] == "Site";
    }
    assert PlainChars(s[9..]) by {
      assert s[9..] == "com";
    }
    assert s[3] == '@' && s[8] == '.';
    assert EmailPattern(s);
    ValidateEmailIsPattern(s);
  }

  /** Without a dot after the `@`, or with nothing before it, an address is turned away. */
  lemma MalformedEmailsFail()
    ensures !ValidateEmail("ana@site")
    ensures !ValidateEmail("@site.com")
  {
    var t := ToLower("ana@site");
    assert t == "ana@site";
    assert IndexOf(t, '@') == 3;
    var u := ToLower("@site.com");
    assert u[0] == '@';
  }

  /** The mode after the toggle: `login` becomes `cadastrar`, anything else `login`. */
  function NextKind(kind: string): (next: string)
    ensures kind == "login" ==> next == "cadastrar"
    ensures kind != "login" ==> next == "login"
  {
    if kind == "login" then "cadastrar" else "login"
  }

  /** The toggle moves between the two modes, and two toggles restore either of them. */
  lemma ToggleTwiceRestores(kind: string)
    requires kind == "login" || kind == "cadastrar"
    ensures NextKind(kind) != kind && (NextKind(kind) == "login" || NextKind(kind) == "cadastrar")
    ensures NextKind(NextKind(kind)) == kind
  {
  }

  /** The call made to the authentication service. */
  datatype AuthCall = NoCall | SignIn(email: string, password: string) | SignUp(email: string, password: string)

  /** How the service answers: a user id, or an error code. */
  datatype AuthAnswer = Authenticated(uid: string) | AuthError(code: string)

  const InvalidEmailMessage := "Email inválido"
  const UnknownEmailMessage := "Email não cadastrado"
  const WrongCredentialsAlert := "Email ou senha incorretos!"
  const SignUpFailedAlert := "Erro ao Cadastrar!"

  class LoginScreen {
    /** `type` of the screen: `login` or `cadastrar`. */
    var kind: string
    var email: string
    var password: string
    var emailError: string

    /** The mode is always one of the two the toggle moves between. */
    predicate Valid()
      reads this`kind
    {
      kind == "login" || kind == "cadastrar"
    }

    constructor ()
      ensures Valid() && kind == "login" && email == "" && password == "" && emailError == ""
    {
      kind := "login";
      email := "";
      password := "";
      emailError := "";
    }

    /**
     * `handleLogin()`: an email that fails the pattern sets the error and
     * calls nothing. Otherwise `login` signs in and any other mode signs up;
     * a user id is handed to the app. A sign-in for an unknown email sets the
     * email error; every other failure raises an alert.
     */
    method HandleLogin(answer: AuthAnswer) returns (call: AuthCall, signedIn: Option<string>, alert: Option<string>)
      modifies this`emailError
      ensures !ValidateEmail(email) ==>
                call == NoCall && signedIn.None? && alert.None? && emailError == InvalidEmailMessage
      ensures ValidateEmail(email) ==>
                call == (if kind == "login" then SignIn(email, password) else SignUp(email, password))
      ensures call != NoCall ==> (signedIn.Some? <==> answer.Authenticated?)
      ensures call != NoCall && answer.Authenticated? ==> signedIn == Some(answer.uid) && alert.None?
      ensures call.SignIn? && answer.AuthError? ==>
                if answer.code == "auth/user-not-found" then emailError == UnknownEmailMessage && alert.None?
                else alert == Some(WrongCredentialsAlert)
      ensures call.SignUp? && answer.AuthError? ==> alert == Some(SignUpFailedAlert)
      ensures (call != NoCall && !(call.SignIn? && answer == AuthError("auth/user-not-found"))) ==>
                emailError == old(emailError)
    {
      if !ValidateEmail(email) {
        emailError := InvalidEmailMessage;
        return NoCall, None, None;
      }
      signedIn, alert := None, None;
      if kind == "login" {
        call := SignIn(email, password);
        match answer {
          case Authenticated(uid) =>
            signedIn := Some(uid);
          case AuthError(code) =>
            if code == "auth/user-not-found" {
              emailError := UnknownEmailMessage;
            } else {
              alert := Some(WrongCredentialsAlert);
            }
        }
      } else {
        call := SignUp(email, password);
        match answer {
          case Authenticated(uid) =>
            signedIn := Some(uid);
          case AuthError(_) =>
            alert := Some(SignUpFailedAlert);
        }
      }
    }

    /** The mode link: switches between signing in and signing up. */
    method ToggleKind()
      requires Valid()
      modifies this`kind
      ensures Valid() && kind == NextKind(old(kind)) && kind != old(kind)
    {
      kind := NextKind(kind);
    }

    /** Typing in the email field clears the email error. */
    method SetEmail(text: string)
      modifies this`email, this`emailError
      ensures email == text && emailError == ""
    {
      email := text;
      emailError := "";
    }

    /** Typing in the password field leaves the email error alone. */
    method SetPassword(text: string)
      modifies this`password
      ensures password == text && emailError == old(emailError)
    {
      password := text;
    }
  }
}
