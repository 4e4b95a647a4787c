/**
 * The sign-in page: the blank-field guard in front of `signIn`, and how an error code
 * coming back from the credentials check is turned into a message — upper-cased, seven
 * exact codes, then a cascade of substring tests.
 */
module LoginPage {
  import opened Wrappers
  import opened Text

  /** The messages `getErrorMessage` can produce. */
  datatype LoginNotice = NotApproved | UserMissing | WrongPassword | FillAllFields
                       | BadEmailFormat | Locked | ServerFailure | LoginFailed

  datatype AlertKind = ErrorAlert | WarningAlert | SuccessAlert

  /** Only the not-approved message is a warning. */
  function LoginKind(n: LoginNotice): AlertKind {
    if n == NotApproved then WarningAlert else ErrorAlert
  }

  /** The seven codes the `switch` matches exactly (after upper-casing). */
  function ExactCode(u: string): Option<LoginNotice> {
    if u == "ACCOUNT_NOT_APPROVED" then Some(NotApproved)
    else if u == "USER_NOT_FOUND" then Some(UserMissing)
    else if u == "INVALID_PASSWORD" then Some(WrongPassword)
    else if u == "MISSING_CREDENTIALS" then Some(FillAllFields)
    else if u == "INVALID_EMAIL_FORMAT" then Some(BadEmailFormat)
    else if u == "ACCOUNT_LOCKED" then Some(Locked)
    else if u == "SERVER_ERROR" then Some(ServerFailure)
    else None
  }

  predicate MentionsNotApproved(u: string) { Contains(u, "NOT_APPROVED") || Contains(u, "FREIGESCHALTET") }
  predicate MentionsPassword(u: string) { Contains(u, "PASSWORT") || Contains(u, "PASSWORD") }
  predicate MentionsUser(u: string) { Contains(u, "BENUTZER") || Contains(u, "USER") }

  /** The `default` branch: the first substring test that matches wins. */
  function Cascade(u: string): (n: LoginNotice)
    ensures n in {NotApproved, WrongPassword, UserMissing, LoginFailed}
  {
    if MentionsNotApproved(u) then NotApproved
    else if MentionsPassword(u) then WrongPassword
    else if MentionsUser(u) then UserMissing
    else LoginFailed
  }

  /** `getErrorMessage(errorCode)`. */
  function ErrorNotice(code: string): LoginNotice {
    var u := ToUpper(code);
    match ExactCode(u)
    case Some(n) => n
    case None => Cascade(u)
  }

  /** Matching ignores case: a code and its upper-case form get the same message. */
  lemma CaseInsensitive(code: string)
    ensures ErrorNotice(ToUpper(code)) == ErrorNotice(code)
  {
    var u := ToUpper(code);
    assert forall i :: 0 <= i < |u| ==> !IsLowerAscii(u[i]);
    ToUpperOfUpper(u);
  }

  /** A code matched by none of the seven cases gets the message of the first substring it contains. */
  lemma CascadeOrder(code: string)
    requires ExactCode(ToUpper(code)).None?
    ensures var u := ToUpper(code);
      && (ErrorNotice(code) == NotApproved <==> MentionsNotApproved(u))
      && (ErrorNotice(code) == WrongPassword <==> !MentionsNotApproved(u) && MentionsPassword(u))
      && (ErrorNotice(code) == UserMissing <==> !MentionsNotApproved(u) && !MentionsPassword(u) && MentionsUser(u))
      && (ErrorNotice(code) == LoginFailed <==> !MentionsNotApproved(u) && !MentionsPassword(u) && !MentionsUser(u))
  {
  }

  /** No character of `u` is `c`. */
  predicate Avoids(u: string, c: char) {
    forall k :: 0 <= k < |u| ==> u[k] != c
  }

  /** A code lacking a character of each of the two approval words mentions no missing approval. */
  lemma NoApproval(u: string, c1: char, c2: char)
    requires c1 in "NOT_APPROVED" && c2 in "FREIGESCHALTET" && Avoids(u, c1) && Avoids(u, c2)
    ensures !MentionsNotApproved(u)
  {
    MissingCharNotContained(u, "NOT_APPROVED", c1);
    MissingCharNotContained(u, "FREIGESCHALTET", c2);
  }

  /** A code lacking a character of each of the two password words mentions no password. */
  lemma NoPassword(u: string, c1: char, c2: char)
    requires c1 in "PASSWORT" && c2 in "PASSWORD" && Avoids(u, c1) && Avoids(u, c2)
    ensures !MentionsPassword(u)
  {
    MissingCharNotContained(u, "PASSWORT", c1);
    MissingCharNotContained(u, "PASSWORD", c2);
  }

  /** A code lacking a character of each of the two user words mentions no user. */
  lemma NoUser(u: string, c1: char, c2: char)
    requires c1 in "BENUTZER" && c2 in "USER" && Avoids(u, c1) && Avoids(u, c2)
    ensures !MentionsUser(u)
  {
    MissingCharNotContained(u, "BENUTZER", c1);
    MissingCharNotContained(u, "USER", c2);
  }

  /** A code holding `t` at position i contains it. */
  lemma WordAt(u: string, t: string, i: nat)
    requires i + |t| <= |u| && u[i..i + |t|] == t
    ensures Contains(u, t)
  {
    assert u[i..][..|t|] == u[i..i + |t|];
    ContainsAt(u, t);
  }

  /** The codes that hold one of the words. */
  lemma AccountNotApprovedWord()
    ensures Contains("ACCOUNT_NOT_APPROVED", "NOT_APPROVED")
  {
    assert "ACCOUNT_NOT_APPROVED"[8..20] == "NOT_APPROVED";
    WordAt("ACCOUNT_NOT_APPROVED", "NOT_APPROVED", 8);
  }

  lemma NotApprovedWord()
    ensures Contains("NOT_APPROVED", "NOT_APPROVED")
  {
    WordAt("NOT_APPROVED", "NOT_APPROVED", 0);
  }

  lemma UserNotFoundWord()
    ensures Contains("USERNOTFOUND", "USER")
  {
    assert "USERNOTFOUND"[0..4] == "USER";
    WordAt("USERNOTFOUND", "USER", 0);
  }

  lemma InvalidPasswordWord()
    ensures Contains("INVALIDPASSWORD", "PASSWORD")
  {
    assert "INVALIDPASSWORD"[7..15] == "PASSWORD";
    WordAt("INVALIDPASSWORD", "PASSWORD", 7);
  }

  /** Letters the substring tests look for. */
  lemma WordLetters()
    ensures 'P' in "NOT_APPROVED" && 'T' in "NOT_APPROVED" && 'O' in "NOT_APPROVED" && 'N' in "NOT_APPROVED"
    ensures 'F' in "FREIGESCHALTET" && 'G' in "FREIGESCHALTET" && 'T' in "FREIGESCHALTET"
    ensures 'P' in "PASSWORT" && 'P' in "PASSWORD"
    ensures 'B' in "BENUTZER" && 'U' in "USER" && 'S' in "USER"
  {
  }

  /** Letters the six other exact codes lack. */
  lemma ExactCodeLetters()
    ensures Avoids("USER_NOT_FOUND", 'P') && Avoids("USER_NOT_FOUND", 'G')
    ensures Avoids("INVALID_PASSWORD", 'T')
    ensures Avoids("MISSING_CREDENTIALS", 'O') && Avoids("MISSING_CREDENTIALS", 'F')
    ensures Avoids("INVALID_EMAIL_FORMAT", 'P') && Avoids("INVALID_EMAIL_FORMAT", 'G')
    ensures Avoids("ACCOUNT_LOCKED", 'P') && Avoids("ACCOUNT_LOCKED", 'F')
    ensures Avoids("SERVER_ERROR", 'N') && Avoids("SERVER_ERROR", 'F')
  {
  }

  /** None of the six other exact codes mentions approval; the first exact code does. */
  lemma ExactCodesAndApproval(u: string)
    requires ExactCode(u).Some?
    ensures MentionsNotApproved(u) <==> u == "ACCOUNT_NOT_APPROVED"
  {
    WordLetters();
    ExactCodeLetters();
    if u == "ACCOUNT_NOT_APPROVED" {
      AccountNotApprovedWord();
    } else if u == "USER_NOT_FOUND" {
      NoApproval(u, 'P', 'G');
    } else if u == "INVALID_PASSWORD" {
      NoApproval(u, 'T', 'T');
    } else if u == "MISSING_CREDENTIALS" {
      NoApproval(u, 'O', 'F');
    } else if u == "INVALID_EMAIL_FORMAT" {
      NoApproval(u, 'P', 'G');
    } else if u == "ACCOUNT_LOCKED" {
      NoApproval(u, 'P', 'F');
    } else {
      NoApproval(u, 'N', 'F');
    }
  }

  /** A message is a warning exactly when the upper-cased code mentions a missing approval. */
  lemma WarningOnlyNotApproved(code: string)
    ensures LoginKind(ErrorNotice(code)) == WarningAlert <==> MentionsNotApproved(ToUpper(code))
  {
    var u := ToUpper(code);
    if ExactCode(u).Some? {
      ExactCodesAndApproval(u);
    }
  }

  /** The message of a code is the one its upper-case form gets. */
  lemma ViaUpper(code: string, u: string, n: LoginNotice)
    requires ToUpper(code) == u && ExactCode(u) == None && Cascade(u) == n
    ensures ErrorNotice(code) == n
  {
  }

  /** The upper-case forms of the codes the credentials check throws. */
  lemma CredentialUpperForms()
    ensures ToUpper("UserNotFound") == "USERNOTFOUND"
    ensures ToUpper("InvalidPassword") == "INVALIDPASSWORD"
    ensures ToUpper("NOT_APPROVED") == "NOT_APPROVED"
    ensures ToUpper("ACCOUNT_DEACTIVATED") == "ACCOUNT_DEACTIVATED"
    ensures ToUpper("MissingCredentials") == "MISSINGCREDENTIALS"
  {
  }

  /** None of them is one of the seven exact codes. */
  lemma CredentialCodesNotExact()
    ensures ExactCode("USERNOTFOUND") == None
    ensures ExactCode("INVALIDPASSWORD") == None
    ensures ExactCode("NOT_APPROVED") == None
    ensures ExactCode("ACCOUNT_DEACTIVATED") == None
    ensures ExactCode("MISSINGCREDENTIALS") == None
  {
  }

  /** Letters the five codes the credentials check throws lack. */
  lemma CredentialLetters()
    ensures Avoids("USERNOTFOUND", 'P') && Avoids("USERNOTFOUND", 'G') && Avoids("INVALIDPASSWORD", 'T')
    ensures Avoids("ACCOUNT_DEACTIVATED", 'P') && Avoids("ACCOUNT_DEACTIVATED", 'F')
    ensures Avoids("ACCOUNT_DEACTIVATED", 'B') && Avoids("ACCOUNT_DEACTIVATED", 'S')
    ensures Avoids("MISSINGCREDENTIALS", 'O') && Avoids("MISSINGCREDENTIALS", 'F') && Avoids("MISSINGCREDENTIALS", 'P')
    ensures Avoids("MISSINGCREDENTIALS", 'B') && Avoids("MISSINGCREDENTIALS", 'U')
  {
  }

  /** A code mentioning a user, and neither approval nor password, gets the no-account message. */
  lemma CascadeToUser(u: string, a1: char, a2: char, p1: char, p2: char)
    requires a1 in "NOT_APPROVED" && a2 in "FREIGESCHALTET" && Avoids(u, a1) && Avoids(u, a2)
    requires p1 in "PASSWORT" && p2 in "PASSWORD" && Avoids(u, p1) && Avoids(u, p2)
    requires Contains(u, "USER")
    ensures Cascade(u) == UserMissing
  {
    NoApproval(u, a1, a2);
    NoPassword(u, p1, p2);
  }

  lemma UserNotFoundCascade()
    ensures Cascade("USERNOTFOUND") == UserMissing
  {
    WordLetters();
    CredentialLetters();
    UserNotFoundWord();
    CascadeToUser("USERNOTFOUND", 'P', 'G', 'P', 'P');
  }

  lemma InvalidPasswordCascade()
    ensures Cascade("INVALIDPASSWORD") == WrongPassword
  {
    WordLetters();
    CredentialLetters();
    InvalidPasswordWord();
    NoApproval("INVALIDPASSWORD", 'T', 'T');
  }

  lemma NotApprovedCascade()
    ensures Cascade("NOT_APPROVED") == NotApproved
  {
    NotApprovedWord();
  }

  lemma DeactivatedCascade()
    ensures Cascade("ACCOUNT_DEACTIVATED") == LoginFailed
  {
    WordLetters();
    CredentialLetters();
    NoApproval("ACCOUNT_DEACTIVATED", 'P', 'F');
    NoPassword("ACCOUNT_DEACTIVATED", 'P', 'P');
    NoUser("ACCOUNT_DEACTIVATED", 'B', 'S');
  }

  lemma MissingCredentialsCascade()
    ensures Cascade("MISSINGCREDENTIALS") == LoginFailed
  {
    WordLetters();
    CredentialLetters();
    NoApproval("MISSINGCREDENTIALS", 'O', 'F');
    NoPassword("MISSINGCREDENTIALS", 'P', 'P');
    NoUser("MISSINGCREDENTIALS", 'B', 'U');
  }

  /**
   * The codes the credentials check throws and the messages they end up as: an unknown address
   * and a wrong password get their own messages through the substring tests, a missing approval
   * the warning, while a deactivated account and missing credentials (spelled `MissingCredentials`,
   * not `MISSING_CREDENTIALS`) fall through to the generic message.
   */
  lemma CredentialCodes()
    ensures ErrorNotice("UserNotFound") == UserMissing
    ensures ErrorNotice("InvalidPassword") == WrongPassword
    ensures ErrorNotice("NOT_APPROVED") == NotApproved
    ensures ErrorNotice("ACCOUNT_DEACTIVATED") == LoginFailed
    ensures ErrorNotice("MissingCredentials") == LoginFailed
  {
    CredentialUpperForms();
    CredentialCodesNotExact();
    UserNotFoundCascade();
    InvalidPasswordCascade();
    NotApprovedCascade();
    DeactivatedCascade();
    MissingCredentialsCascade();
    ViaUpper("UserNotFound", "USERNOTFOUND", UserMissing);
    ViaUpper("InvalidPassword", "INVALIDPASSWORD", WrongPassword);
    ViaUpper("NOT_APPROVED", "NOT_APPROVED", NotApproved);
    ViaUpper("ACCOUNT_DEACTIVATED", "ACCOUNT_DEACTIVATED", LoginFailed);
    ViaUpper("MissingCredentials", "MISSINGCREDENTIALS", LoginFailed);
  }

  /** The German text of each message. */
  function LoginText(n: LoginNotice): string {
    match n
    case NotApproved => "Dein Konto ist noch nicht freigeschaltet. Bitte wende dich an den Administrator."
    case UserMissing => "Es wurde kein Konto mit dieser E-Mail-Adresse gefunden."
    case WrongPassword => "Das eingegebene Passwort ist falsch."
    case FillAllFields => "Bitte fülle alle Felder aus."
    case BadEmailFormat => "Bitte gib eine gültige E-Mail-Adresse ein."
    case Locked => "Dein Konto wurde gesperrt. Bitte wende dich an den Administrator."
    case ServerFailure => "Ein Serverfehler ist aufgetreten. Bitte versuche es später erneut."
    case LoginFailed => "Anmeldung fehlgeschlagen. Bitte überprüfe deine Eingaben und versuche es erneut."
  }

  // ----- Submitting -----

  /** The credentials handed to `signIn`. */
  datatype Credentials = Credentials(email: string, password: string)

  datatype Attempt = Rejected(notice: LoginNotice) | SignIn(credentials: Credentials)

  /** `handleSubmit`'s guard: a blank field stops the attempt; the e-mail is sent trimmed, the password as typed. */
  function Submit(email: string, password: string): (a: Attempt)
    ensures a.Rejected? <==> IsBlank(email) || IsBlank(password)
    ensures a.Rejected? ==> a.notice == FillAllFields
    ensures a.SignIn? ==> a.credentials.password == password && a.credentials.email == Trim(email)
    ensures a.SignIn? ==> a.credentials.email != "" && !IsBlank(a.credentials.password)
  {
    TrimEmptyIffBlank(email);
    TrimEmptyIffBlank(password);
    if Trim(email) == "" || Trim(password) == "" then Rejected(FillAllFields)
    else SignIn(Credentials(Trim(email), password))
  }

  /** What `signIn` gives back, or a call that threw. */
  datatype SignInResult = Threw | Returned(error: Option<string>, ok: bool)

  datatype Outcome = Refused(notice: LoginNotice) | SignedIn | UnknownFailure | NoConnection

  /** How the result is shown: an error code first, then success. */
  function ShowResult(r: SignInResult): (o: Outcome)
    ensures o.Refused? <==> r.Returned? && Present(r.error)
    ensures o.Refused? ==> o.notice == ErrorNotice(r.error.value)
    ensures o == SignedIn <==> r.Returned? && !Present(r.error) && r.ok
    ensures o == NoConnection <==> r.Threw?
  {
    match r
    case Threw => NoConnection
    case Returned(error, ok) =>
      if Present(error) then Refused(ErrorNotice(error.value))
      else if ok then SignedIn
      else UnknownFailure
  }
}
