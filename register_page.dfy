/**
 * The self-registration page: the password-strength meter with its list of missing
 * criteria, the validation with its fixed order of messages, the request body, and how
 * the reply is shown. The network call is replaced by the reply it returns.
 */
module RegisterPage {
  import opened Wrappers
  import opened Text
  import opened FormChecks

  // ----- Password strength -----

  /** The four criteria the meter checks, in the order it checks them. */
  datatype Criterion = MinLength | Upper | Lower | Digit

  predicate Meets(pwd: string, c: Criterion) {
    match c
    case MinLength => |pwd| >= 8
    case Upper => HasUpper(pwd)
    case Lower => HasLower(pwd)
    case Digit => HasDigit(pwd)
  }

  function CriterionLabel(c: Criterion): string {
    match c
    case MinLength => "min. 8 Zeichen"
    case Upper => "Großbuchstabe"
    case Lower => "Kleinbuchstabe"
    case Digit => "Zahl"
  }

  /** The strength record: an empty password has no feedback at all. */
  datatype Strength = Strength(strength: nat, text: string, feedback: Option<string>)

  /** The text shown for each score. */
  function ScoreText(score: nat): string {
    if score == 25 then "Schwach"
    else if score == 50 then "Ausreichend"
    else if score == 75 then "Gut"
    else if score == 100 then "Stark"
    else ""
  }

  /** The criteria a password misses, in the order the meter checks them. */
  function Missing(pwd: string): seq<Criterion> {
    (if |pwd| >= 8 then [] else [MinLength]) + (if HasUpper(pwd) then [] else [Upper]) +
    (if HasLower(pwd) then [] else [Lower]) + (if HasDigit(pwd) then [] else [Digit])
  }

  function Labels(cs: seq<Criterion>): (ls: seq<string>)
    ensures |ls| == |cs| && forall i :: 0 <= i < |cs| ==> ls[i] == CriterionLabel(cs[i])
  {
    seq(|cs|, i requires 0 <= i < |cs| => CriterionLabel(cs[i]))
  }

  /** The feedback line: the missing criteria joined, or the all-clear. */
  function FeedbackText(missing: seq<string>): (t: string)
    ensures |t| > 0 && (t[0] == 'F' <==> |missing| > 0)
  {
    if |missing| > 0 then "Fehlt: " + Join(missing, ", ") else "Alle Kriterien erfüllt"
  }

  /** `getPasswordStrength(pwd)`: 25 per criterion met, the labels of the missing ones collected in order. */
  method GetPasswordStrength(pwd: string) returns (r: Strength)
    ensures pwd == "" ==> r == Strength(0, "", None)
    ensures pwd != "" ==> r.strength + 25 * |Missing(pwd)| == 100
    ensures pwd != "" ==> r.text == ScoreText(r.strength) && r.feedback == Some(FeedbackText(Labels(Missing(pwd))))
  {
    if |pwd| == 0 {
      return Strength(0, "", None);
    }
    var long, upper, lower, digit := |pwd| >= 8, HasUpper(pwd), HasLower(pwd), HasDigit(pwd);
    var score := 0;
    var feedback: seq<string> := [];
    if long { score := score + 25; } else { feedback := feedback + [CriterionLabel(MinLength)]; }
    if upper { score := score + 25; } else { feedback := feedback + [CriterionLabel(Upper)]; }
    if lower { score := score + 25; } else { feedback := feedback + [CriterionLabel(Lower)]; }
    if digit { score := score + 25; } else { feedback := feedback + [CriterionLabel(Digit)]; }
    assert feedback == Labels(Missing(pwd));
    r := Strength(score, ScoreText(score), Some(FeedbackText(feedback)));
  }

  /** A criterion is listed exactly when it is missed, and each at most once; so the score is one of 0, 25, 50, 75, 100. */
  lemma MissingExactly(pwd: string, c: Criterion)
    ensures c in Missing(pwd) <==> !Meets(pwd, c)
    ensures forall i, j :: 0 <= i < j < |Missing(pwd)| ==> Missing(pwd)[i] != Missing(pwd)[j]
    ensures |Missing(pwd)| <= 4 && 100 - 25 * |Missing(pwd)| in {0, 25, 50, 75, 100}
  {
    match c
    case MinLength =>
    case Upper =>
    case Lower =>
    case Digit =>
  }

  /** The feedback reads "Alle Kriterien erfüllt" exactly when all four criteria are met. */
  lemma AllMetFeedback(pwd: string)
    ensures FeedbackText(Labels(Missing(pwd))) == "Alle Kriterien erfüllt" <==> forall d :: Meets(pwd, d)
  {
    if forall d :: Meets(pwd, d) {
      assert Meets(pwd, MinLength) && Meets(pwd, Upper) && Meets(pwd, Lower) && Meets(pwd, Digit);
    } else {
      var d :| !Meets(pwd, d);
      MissingExactly(pwd, d);
    }
  }

  // ----- Validation -----

  datatype RegisterError = NoFirstName | ShortFirstName | NoLastName | ShortLastName
                         | NoEmail | BadEmail | NoPassword | ShortPassword

  function Rank(e: RegisterError): nat {
    match e
    case NoFirstName => 0
    case ShortFirstName => 1
    case NoLastName => 2
    case ShortLastName => 3
    case NoEmail => 4
    case BadEmail => 5
    case NoPassword => 6
    case ShortPassword => 7
  }

  function Message(e: RegisterError): string {
    match e
    case NoFirstName => "Bitte gib deinen Vornamen ein."
    case ShortFirstName => "Der Vorname muss mindestens 2 Zeichen lang sein."
    case NoLastName => "Bitte gib deinen Nachnamen ein."
    case ShortLastName => "Der Nachname muss mindestens 2 Zeichen lang sein."
    case NoEmail => "Bitte gib deine E-Mail-Adresse ein."
    case BadEmail => "Bitte gib eine gültige E-Mail-Adresse ein."
    case NoPassword => "Bitte gib ein Passwort ein."
    case ShortPassword => "Das Passwort muss mindestens 8 Zeichen lang sein."
  }

  datatype RegisterForm = RegisterForm(firstName: string, lastName: string, email: string, password: string)

  /** Each check on its own. */
  predicate Fails(f: RegisterForm, e: RegisterError) {
    match e
    case NoFirstName => Trim(f.firstName) == ""
    case ShortFirstName => |Trim(f.firstName)| < 2
    case NoLastName => Trim(f.lastName) == ""
    case ShortLastName => |Trim(f.lastName)| < 2
    case NoEmail => Trim(f.email) == ""
    case BadEmail => !EmailShaped(Trim(f.email))
    case NoPassword => f.password == ""
    case ShortPassword => |f.password| < 8
  }

  /** `validateForm()`: the first failing check, or none. */
  function ValidateForm(f: RegisterForm): Option<RegisterError> {
    if Trim(f.firstName) == "" then Some(NoFirstName)
    else if |Trim(f.firstName)| < 2 then Some(ShortFirstName)
    else if Trim(f.lastName) == "" then Some(NoLastName)
    else if |Trim(f.lastName)| < 2 then Some(ShortLastName)
    else if Trim(f.email) == "" then Some(NoEmail)
    else if !EmailShaped(Trim(f.email)) then Some(BadEmail)
    else if f.password == "" then Some(NoPassword)
    else if |f.password| < 8 then Some(ShortPassword)
    else None
  }

  /** The error reported is a failing check, and every check before it passes. */
  lemma ValidateFirstFailure(f: RegisterForm)
    requires ValidateForm(f).Some?
    ensures var e := ValidateForm(f).value;
      Fails(f, e) && forall d :: Rank(d) < Rank(e) ==> !Fails(f, d)
  {
    var e := ValidateForm(f).value;
    forall d | Rank(d) < Rank(e) ensures !Fails(f, d) {
      match d
      case NoFirstName =>
      case ShortFirstName =>
      case NoLastName =>
      case ShortLastName =>
      case NoEmail =>
      case BadEmail =>
      case NoPassword =>
      case ShortPassword =>
    }
  }

  /** No error is reported exactly when every check passes. */
  lemma ValidatePassesAll(f: RegisterForm)
    ensures ValidateForm(f).None? <==> forall e :: !Fails(f, e)
  {
    if ValidateForm(f).None? {
      forall e ensures !Fails(f, e) {
        match e
        case NoFirstName =>
        case ShortFirstName =>
        case NoLastName =>
        case ShortLastName =>
        case NoEmail =>
        case BadEmail =>
        case NoPassword =>
        case ShortPassword =>
      }
    } else {
      ValidateFirstFailure(f);
    }
  }

  // ----- The request and the reply -----

  datatype Request = Request(firstName: string, lastName: string, email: string, password: string)

  /** The body of `POST /api/register`: trimmed names, the trimmed lower-cased e-mail, the password as typed. */
  function RequestOf(f: RegisterForm): Request {
    Request(Trim(f.firstName), Trim(f.lastName), ToLower(Trim(f.email)), f.password)
  }

  /** A request that is sent carries names of two or more characters without outer spaces, an e-mail the pattern accepts, and a password of eight or more characters. */
  lemma SentRequest(f: RegisterForm)
    requires ValidateForm(f).None?
    ensures var q := RequestOf(f);
      && |q.firstName| >= 2 && |q.lastName| >= 2 && !IsSpace(q.firstName[0]) && !IsSpace(q.lastName[0])
      && EmailPattern(q.email) && ToLower(q.email) == q.email
      && q.password == f.password && |q.password| >= 8
  {
    assert !Fails(f, ShortFirstName) && !Fails(f, ShortLastName) && !Fails(f, BadEmail) && !Fails(f, ShortPassword) by {
      ValidatePassesAll(f);
    }
    SentEmail(Trim(f.email));
  }

  lemma SentEmail(t: string)
    requires EmailShaped(t)
    ensures EmailPattern(ToLower(t)) && ToLower(ToLower(t)) == ToLower(t)
  {
    EmailShapedIsPattern(t);
    LowerKeepsPattern(t);
    ToLowerIdempotent(t);
  }

  /** Lower-casing keeps the characters the pattern looks at, so it keeps a matching address matching. */
  lemma LowerKeepsPattern(s: string)
    requires EmailPattern(s)
    ensures EmailPattern(ToLower(s))
  {
    var i, j :| 0 < i && i + 1 < j && j + 1 < |s| && s[i] == '@' && s[j] == '.' &&
      forall k :: 0 <= k < |s| && k != i ==> PlainChar(s[k]);
    var l := ToLower(s);
    forall k | 0 <= k < |l| && k != i ensures PlainChar(l[k]) {
      assert PlainChar(s[k]);
    }
    assert l[i] == '@' && l[j] == '.';
  }

  /** The reply of the route as the page reads it. */
  datatype Reply = Reply(ok: bool, status: nat, error: Option<string>, requiresVerification: bool, email: Option<string>)

  /** The alert the page shows. */
  datatype Notice = AlreadyRegistered | ServerError(message: string) | RegistrationFailed
                  | VerifyByCode | Registered

  /** Only a 409 is a warning; the two successes clear the form, and only the first redirects. */
  function Kind(n: Notice): string {
    match n
    case AlreadyRegistered => "warning"
    case ServerError(_) => "error"
    case RegistrationFailed => "error"
    case VerifyByCode => "success"
    case Registered => "success"
  }

  /** How `handleSubmit` shows a reply. */
  function ShowReply(r: Reply): (n: Notice)
    ensures n == AlreadyRegistered <==> !r.ok && r.status == 409
    ensures n.ServerError? <==> !r.ok && r.status != 409 && r.error.Some? && r.error.value != ""
    ensures n.ServerError? ==> n.message == r.error.value
    ensures Kind(n) == "success" <==> r.ok
    ensures n == VerifyByCode <==> r.ok && r.requiresVerification && r.email.Some? && r.email.value != ""
  {
    if !r.ok then
      if r.status == 409 then AlreadyRegistered
      else if r.error.Some? && r.error.value != "" then ServerError(r.error.value)
      else RegistrationFailed
    else if r.requiresVerification && r.email.Some? && r.email.value != "" then VerifyByCode
    else Registered
  }

  /** The German text of each alert. */
  function NoticeText(n: Notice): string {
    match n
    case AlreadyRegistered => "Diese E-Mail-Adresse ist bereits registriert."
    case ServerError(m) => m
    case RegistrationFailed => "Registrierung fehlgeschlagen. Bitte versuche es erneut."
    case VerifyByCode => "\U{1F389} Registrierung erfolgreich! Prüfe deine E-Mails für den Bestätigungscode. Du wirst weitergeleitet..."
    case Registered => "Registrierung erfolgreich! Du erhältst eine Bestätigungs-E-Mail und kannst dich anmelden, sobald dein Account freigeschaltet wurde."
  }

  /** What pressing the button does: show the first validation message, or send the request. */
  datatype Submission = Invalid(message: string) | Send(request: Request)

  function Submit(f: RegisterForm): (s: Submission)
    ensures s.Invalid? <==> exists e :: Fails(f, e)
    ensures s.Invalid? ==> s.message == Message(ValidateForm(f).value)
    ensures s.Send? ==> s.request == RequestOf(f)
  {
    ValidatePassesAll(f);
    var v := ValidateForm(f);
    if v.Some? then Invalid(Message(v.value)) else Send(RequestOf(f))
  }
}
