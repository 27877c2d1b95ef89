/** Account creation (components/Register.tsx): the ordered validation chain
    of `handleSubmit`, the e-mail pattern, the registration payload and the
    choice of the error message shown for a refused registration. */
module Register {
  import opened Wrappers
  import opened Text
  import opened Decimal
  import opened Http

  datatype RegisterForm = RegisterForm(username: string, email: string, password: string, confirmPassword: string,
                                       firstName: string, lastName: string, phone: string)

  const EmptyForm := RegisterForm("", "", "", "", "", "", "")

  /** The `name` attributes of the seven inputs. */
  datatype FieldName = Username | Email | Password | ConfirmPassword | FirstName | LastName | Phone

  const RequiredMessage := "Veuillez remplir tous les champs obligatoires"
  const UsernameTooShortMessage := "Le nom d'utilisateur doit contenir au moins 3 caractères"
  const PasswordTooShortMessage := "Le mot de passe doit contenir au moins 8 caractères"
  const MismatchMessage := "Les mots de passe ne correspondent pas"
  const EmailFormatMessage := "Format d'email invalide"
  const CreationFailedMessage := "Échec de la création du compte"
  const CreatedMessage := "Compte admin créé avec succès ! Vous pouvez maintenant vous connecter."

  /** `handleChange`: the form with the named input replaced. */
  function WithField(f: RegisterForm, name: FieldName, value: string): (g: RegisterForm)
    ensures name == Username ==> g == f.(username := value)
    ensures name == Email ==> g == f.(email := value)
    ensures name == Password ==> g == f.(password := value)
    ensures name == ConfirmPassword ==> g == f.(confirmPassword := value)
    ensures name == FirstName ==> g == f.(firstName := value)
    ensures name == LastName ==> g == f.(lastName := value)
    ensures name == Phone ==> g == f.(phone := value)
  {
    match name
    case Username => f.(username := value)
    case Email => f.(email := value)
    case Password => f.(password := value)
    case ConfirmPassword => f.(confirmPassword := value)
    case FirstName => f.(firstName := value)
    case LastName => f.(lastName := value)
    case Phone => f.(phone := value)
  }

  // ---------------------------------------------------------------- e-mail pattern

  /** Every character is matched by the class `[^\s@]`. */
  predicate Plain(s: string) {
    forall i :: 0 <= i < |s| ==> !IsSpace(s[i]) && s[i] != '@'
  }

  /** A match of `^[^\s@]+@[^\s@]+\.[^\s@]+$`: a split point `i` for the
      '@' and `j` for the escaped '.', with a non-empty run of plain
      characters before each and after the last. */
  ghost predicate MatchesEmailPattern(s: string) {
    exists i, j :: 0 < i && i + 1 < j && j + 1 < |s| && s[i] == '@' && s[j] == '.' &&
                   Plain(s[..i]) && Plain(s[i + 1..j]) && Plain(s[j + 1..])
  }

  /** The pattern test as the code can run it: a first '@' that is not the
      first character, plain text after it, and a '.' in that text that is
      neither its first nor its last character. */
  predicate IsValidEmail(s: string) {
    '@' in s &&
    var at := IndexOf(s, '@');
    var domain := s[at + 1..];
    at > 0 && Plain(s[..at]) && Plain(domain) && |domain| >= 3 && '.' in domain[1..|domain| - 1]
  }

  /** An accepted address holds exactly one '@' and no whitespace. */
  lemma EmailTestShape(s: string)
    requires IsValidEmail(s)
    ensures Count(s, '@') == 1 && forall i :: 0 <= i < |s| ==> !IsSpace(s[i])
  {
    var at := IndexOf(s, '@');
    var domain := s[at + 1..];
    assert s == s[..at] + [s[at]] + domain;
    CountAppend(s[..at] + [s[at]], domain, '@');
    CountAppend(s[..at], [s[at]], '@');
    CountAbsent(s[..at], '@');
    CountAbsent(domain, '@');
    forall i | 0 <= i < |s| ensures !IsSpace(s[i]) {
      if i < at { assert s[i] == s[..at][i]; }
      else if i > at { assert s[i] == domain[i - at - 1]; }
    }
  }

  lemma PlainSlice(s: string, a: int, b: int)
    requires Plain(s) && 0 <= a <= b <= |s|
    ensures Plain(s[a..b])
  {
    assert forall i :: 0 <= i < b - a ==> s[a..b][i] == s[a + i];
  }

  /** Every string the computed test accepts matches the pattern. */
  lemma EmailTestSound(s: string)
    requires IsValidEmail(s)
    ensures MatchesEmailPattern(s)
  {
    var at := IndexOf(s, '@');
    var domain := s[at + 1..];
    var middle := domain[1..|domain| - 1];
    var k := IndexOf(middle, '.');
    var j := at + 2 + k;
    assert s[j] == middle[k];
    assert s[at + 1..j] == domain[..k + 1];
    assert s[j + 1..] == domain[k + 2..];
    PlainSlice(domain, 0, k + 1);
    PlainSlice(domain, k + 2, |domain|);
    assert 0 < at && at + 1 < j && j + 1 < |s| && s[at] == '@' && s[j] == '.' &&
           Plain(s[..at]) && Plain(s[at + 1..j]) && Plain(s[j + 1..]);
  }

  /** Every string the pattern matches passes the computed test. */
  lemma EmailTestComplete(s: string)
    requires MatchesEmailPattern(s)
    ensures IsValidEmail(s)
  {
    var i, j :| 0 < i && i + 1 < j && j + 1 < |s| && s[i] == '@' && s[j] == '.' &&
                Plain(s[..i]) && Plain(s[i + 1..j]) && Plain(s[j + 1..]);
    EmailSplitAccepted(s, i, j);
  }

  lemma EmailSplitAccepted(s: string, i: int, j: int)
    requires 0 < i && i + 1 < j && j + 1 < |s| && s[i] == '@' && s[j] == '.'
    requires Plain(s[..i]) && Plain(s[i + 1..j]) && Plain(s[j + 1..])
    ensures IsValidEmail(s)
  {
    PlainHasNo(s[..i]);
    IndexOfFirst(s, '@', i);
    var domain := s[i + 1..];
    assert domain == s[i + 1..j] + [s[j]] + s[j + 1..];
    PlainAround(s[i + 1..j], s[j], s[j + 1..]);
    assert domain[1..|domain| - 1][j - i - 2] == '.';
  }

  lemma PlainHasNo(s: string)
    requires Plain(s)
    ensures '@' !in s
  {
  }

  lemma PlainAround(a: string, c: char, b: string)
    requires Plain(a) && Plain(b) && !IsSpace(c) && c != '@'
    ensures Plain(a + [c] + b)
  {
    var d := a + [c] + b;
    forall m | 0 <= m < |d| ensures !IsSpace(d[m]) && d[m] != '@' {
      if m < |a| { assert d[m] == a[m]; }
      else if m > |a| { assert d[m] == b[m - |a| - 1]; }
    }
  }

  /** The computed test accepts exactly the strings the pattern matches. */
  lemma EmailTestIsPattern(s: string)
    ensures IsValidEmail(s) <==> MatchesEmailPattern(s)
  {
    if IsValidEmail(s) { EmailTestSound(s); }
    if MatchesEmailPattern(s) { EmailTestComplete(s); }
  }

  // ---------------------------------------------------------------- validation

  /** The validation chain of `handleSubmit`: the message of the first check
      that fails, or None when the form may be sent. Lengths are JavaScript
      `length`s. */
  function Validate(f: RegisterForm): Option<string> {
    if f.username == "" || f.email == "" || f.password == "" || f.firstName == "" || f.lastName == "" then
      Some(RequiredMessage)
    else if JsLength(f.username) < 3 then Some(UsernameTooShortMessage)
    else if JsLength(f.password) < 8 then Some(PasswordTooShortMessage)
    else if f.password != f.confirmPassword then Some(MismatchMessage)
    else if !IsValidEmail(f.email) then Some(EmailFormatMessage)
    else None
  }

  /** The object `registerData` sent under the multipart field 'data'. */
  datatype RegisterPayload = RegisterPayload(username: string, email: string, password: string, firstName: string,
                                             lastName: string, phone: Option<string>, service: string,
                                             roles: seq<string>)

  function PayloadOf(f: RegisterForm): RegisterPayload {
    RegisterPayload(f.username, f.email, f.password, f.firstName, f.lastName,
                    if f.phone == "" then None else Some(f.phone), "SYNDICAT", ["ADMIN"])
  }

  // ---------------------------------------------------------------- the reply

  /** How the registration endpoint answered. A refused reply carries its
      raw body text; `parse` says whether that text is JSON. */
  datatype RegisterReply =
    | Unreachable(reason: string)
    | Created(body: Parsed<JsonObject>)
    | Rejected(status: ErrorStatus, statusText: string, text: string)

  /** The message the refused-reply branch raises, AS WRITTEN: when the body
      is not JSON, `response.json()` has already consumed it, so the
      fallback `response.text()` rejects too (a body may be read once,
      section 5 of the Fetch standard), and the TypeError it rejects with,
      `bodyUsed`, is what `handleSubmit` shows. */
  function RejectionMessageAsWritten(status: ErrorStatus, statusText: string, text: string,
                                     parse: string -> Option<JsonObject>, bodyUsed: string): string {
    match parse(text)
    case Some(o) => MessageOrError(Json(o), CreationFailedMessage)
    case None => bodyUsed
  }

  /** The message the branch evidently means to raise: the JSON body's
      `message`, else its `error`, else the default; for a body that is not
      JSON, its text, else `Erreur <status>: <statusText>`. */
  function RejectionMessage(status: ErrorStatus, statusText: string, text: string,
                            parse: string -> Option<JsonObject>): (m: string)
    ensures parse(text).Some? ==> m == MessageOrError(Json(parse(text).value), CreationFailedMessage)
    ensures parse(text).None? && text != "" ==> m == text
    ensures parse(text).None? && text == "" ==> m == StatusMessage(status) + ": " + statusText
  {
    match parse(text)
    case Some(o) => MessageOrError(Json(o), CreationFailedMessage)
    case None => OrElse(text, StatusMessage(status) + ": " + statusText)
  }

  /** For a body that is not JSON the message as written never depends on
      the body or the status, so the body text the branch tries to show is
      lost whenever it differs from the TypeError's message. */
  lemma RejectionTextLost(status: ErrorStatus, statusText: string, text: string,
                          parse: string -> Option<JsonObject>, bodyUsed: string)
    requires parse(text).None? && text != "" && text != bodyUsed
    ensures RejectionMessageAsWritten(status, statusText, text, parse, bodyUsed) == bodyUsed
    ensures RejectionMessageAsWritten(status, statusText, text, parse, bodyUsed) !=
            RejectionMessage(status, statusText, text, parse)
  {
  }

  /** A concrete case: a 502 whose body is the text "Bad Gateway". */
  lemma RejectionTextLostExample()
    ensures RejectionMessageAsWritten(502, "Bad Gateway", "Bad Gateway", _ => None, "body stream already read") ==
            "body stream already read"
    ensures RejectionMessage(502, "Bad Gateway", "Bad Gateway", _ => None) == "Bad Gateway"
  {
  }

  /** A JSON error body gets the same message either way. */
  lemma RejectionJsonAgrees(status: ErrorStatus, statusText: string, text: string,
                            parse: string -> Option<JsonObject>, bodyUsed: string)
    requires parse(text).Some?
    ensures RejectionMessageAsWritten(status, statusText, text, parse, bodyUsed) ==
            RejectionMessage(status, statusText, text, parse)
  {
  }

  // ---------------------------------------------------------------- submit

  /** What one submit leaves: the error and success texts and the payloads
      sent. */
  datatype SubmitOutcome = SubmitOutcome(error: string, success: string, sent: seq<RegisterPayload>)

  /** One submit with the registration endpoint answering `reply`; a
      refused body is read as written, `bodyUsed` being the message of the
      TypeError a second read of it rejects with. */
  function Submit(f: RegisterForm, reply: RegisterReply, parse: string -> Option<JsonObject>, bodyUsed: string)
    : SubmitOutcome {
    match Validate(f)
    case Some(message) => SubmitOutcome(message, "", [])
    case None =>
      var sent := [PayloadOf(f)];
      match reply
      case Unreachable(reason) => SubmitOutcome(reason, "", sent)
      case Rejected(status, statusText, text) =>
        SubmitOutcome(RejectionMessageAsWritten(status, statusText, text, parse, bodyUsed), "", sent)
      case Created(NotJson(reason)) => SubmitOutcome(reason, "", sent)
      case Created(Json(_)) => SubmitOutcome("", CreatedMessage, sent)
  }

  class RegisterPage {
    var form: RegisterForm
    var error: string
    var success: string
    var isLoading: bool
    /** The payloads posted to the registration endpoint. */
    ghost var sent: seq<RegisterPayload>
    const parse: string -> Option<JsonObject>
    /** The message of the TypeError a second read of a consumed body
        rejects with. */
    const bodyUsed: string

    constructor (parse: string -> Option<JsonObject>, bodyUsed: string)
      ensures form == EmptyForm && error == "" && success == "" && !isLoading && sent == []
      ensures this.parse == parse && this.bodyUsed == bodyUsed
    {
      form := EmptyForm;
      error := "";
      success := "";
      isLoading := false;
      sent := [];
      this.parse := parse;
      this.bodyUsed := bodyUsed;
    }

    method HandleChange(name: FieldName, value: string)
      modifies this
      ensures form == WithField(old(form), name, value)
      ensures error == old(error) && success == old(success) && isLoading == old(isLoading) && sent == old(sent)
    {
      form := WithField(form, name, value);
    }

    /** `handleSubmit`, with the registration endpoint answering `reply`. */
    method HandleSubmit(reply: RegisterReply)
      modifies this
      ensures var o := Submit(form, reply, parse, bodyUsed);
              error == o.error && success == o.success && sent == old(sent) + o.sent
      ensures isLoading == (old(isLoading) && Validate(form).Some?)
      ensures form == old(form)
    {
      error := "";
      success := "";
      var invalid := Validate(form);
      if invalid.Some? {
        error := invalid.value;
        return;
      }
      isLoading := true;
      var registerData := PayloadOf(form);
      sent := sent + [registerData];
      match reply {
        case Unreachable(reason) =>
          error := reason;
        case Rejected(status, statusText, text) =>
          error := RejectionMessageAsWritten(status, statusText, text, parse, bodyUsed);
        case Created(NotJson(reason)) =>
          error := reason;
        case Created(Json(_)) =>
          success := CreatedMessage;
      }
      isLoading := false;
    }
  }

  // ---------------------------------------------------------------- lemmas

  /** A form is sent exactly when every required field is filled, the
      username has at least 3 characters, the password at least 8 and
      equals its confirmation, and the e-mail matches the pattern. */
  lemma ValidateAccepts(f: RegisterForm)
    ensures Validate(f).None? <==>
            f.username != "" && f.email != "" && f.password != "" && f.firstName != "" && f.lastName != "" &&
            JsLength(f.username) >= 3 && JsLength(f.password) >= 8 && f.password == f.confirmPassword &&
            MatchesEmailPattern(f.email)
  {
    EmailTestIsPattern(f.email);
  }

  /** The five required inputs hold something. */
  predicate Filled(f: RegisterForm) {
    f.username != "" && f.email != "" && f.password != "" && f.firstName != "" && f.lastName != ""
  }

  /** The checks run in order, the first that fails deciding the message:
      a missing field, then a short username, a short password, a
      mismatched confirmation and a malformed e-mail. */
  lemma ValidateOrder(f: RegisterForm)
    ensures !Filled(f) ==> Validate(f) == Some(RequiredMessage)
    ensures Filled(f) && JsLength(f.username) < 3 ==> Validate(f) == Some(UsernameTooShortMessage)
    ensures Filled(f) && JsLength(f.username) >= 3 && JsLength(f.password) < 8 ==>
            Validate(f) == Some(PasswordTooShortMessage)
    ensures Filled(f) && JsLength(f.username) >= 3 && JsLength(f.password) >= 8 && f.password != f.confirmPassword ==>
            Validate(f) == Some(MismatchMessage)
    ensures (Filled(f) && JsLength(f.username) >= 3 && JsLength(f.password) >= 8 && f.password == f.confirmPassword &&
             !MatchesEmailPattern(f.email)) ==> Validate(f) == Some(EmailFormatMessage)
  {
    EmailTestIsPattern(f.email);
  }

  /** A form that fails validation sends nothing and shows the failing
      check's message. */
  lemma InvalidFormNotSent(f: RegisterForm, reply: RegisterReply, parse: string -> Option<JsonObject>, bodyUsed: string)
    requires Validate(f).Some?
    ensures var o := Submit(f, reply, parse, bodyUsed);
            o.sent == [] && o.error == Validate(f).value && o.error != "" && o.success == ""
  {
  }

  /** A valid form is sent once, with the entered fields, the phone only
      when one was entered, the service 'SYNDICAT' and the single role
      'ADMIN'. */
  lemma ValidFormSentOnce(f: RegisterForm, reply: RegisterReply, parse: string -> Option<JsonObject>, bodyUsed: string)
    requires Validate(f).None?
    ensures var o := Submit(f, reply, parse, bodyUsed);
            |o.sent| == 1 &&
            o.sent[0].username == f.username && o.sent[0].email == f.email && o.sent[0].password == f.password &&
            o.sent[0].firstName == f.firstName && o.sent[0].lastName == f.lastName &&
            (o.sent[0].phone.None? <==> f.phone == "") && o.sent[0].phone.GetOr("") == f.phone &&
            o.sent[0].service == "SYNDICAT" && o.sent[0].roles == ["ADMIN"]
  {
  }

  /** A refused registration with a JSON body shows its `message`, else its
      `error`, else 'Échec de la création du compte'. */
  lemma RejectedMessageChoice(f: RegisterForm, status: ErrorStatus, statusText: string, text: string,
                              parse: string -> Option<JsonObject>, bodyUsed: string)
    requires Validate(f).None? && parse(text).Some?
    ensures var o := Submit(f, Rejected(status, statusText, text), parse, bodyUsed);
            var body := parse(text).value;
            o.success == "" &&
            (Field(body, "message") != "" ==> o.error == body["message"]) &&
            (Field(body, "message") == "" && Field(body, "error") != "" ==> o.error == body["error"]) &&
            (Field(body, "message") == "" && Field(body, "error") == "" ==> o.error == CreationFailedMessage)
  {
  }

  /** Success and error are never shown together, and success is shown
      exactly for a valid form whose creation reply is a 2xx JSON body. */
  lemma SuccessExcludesError(f: RegisterForm, reply: RegisterReply, parse: string -> Option<JsonObject>, bodyUsed: string)
    ensures var o := Submit(f, reply, parse, bodyUsed);
            (o.success != "" ==> o.error == "") &&
            (o.success != "" <==> Validate(f).None? && reply.Created? && reply.body.Json?)
  {
  }

  /** A refused registration whose body is not JSON shows the TypeError of
      the second read, whatever the body and the status: the body text the
      branch means to show never reaches the page. */
  lemma RefusedTextNotShown(f: RegisterForm, status: ErrorStatus, statusText: string, text: string,
                            parse: string -> Option<JsonObject>, bodyUsed: string)
    requires Validate(f).None? && parse(text).None?
    ensures var o := Submit(f, Rejected(status, statusText, text), parse, bodyUsed);
            o.error == bodyUsed && o.success == "" && |o.sent| == 1
    ensures text != "" && text != bodyUsed ==>
            Submit(f, Rejected(status, statusText, text), parse, bodyUsed).error !=
            RejectionMessage(status, statusText, text, parse)
  {
    if text != "" && text != bodyUsed {
      RejectionTextLost(status, statusText, text, parse, bodyUsed);
    }
  }
}
