/** Password reset (components/ForgotPassword.tsx): three forms shown one
    after another (e-mail, code, new password), each posting one request;
    the step only moves forward, and only after an OK reply. */
module ForgotPassword {
  import opened Wrappers
  import opened Http
  import opened Text

  datatype Stage = EmailStage | CodeStage | PasswordStage

  /** The order in which the stages are shown. */
  function Rank(s: Stage): nat {
    match s
    case EmailStage => 0
    case CodeStage => 1
    case PasswordStage => 2
  }

  const ForgotUrl := "https://auth-service.pynfi.com/api/password/forgot"
  const VerifyUrl := "https://auth-service.pynfi.com/api/password/verify"
  const ResetUrl := "https://auth-service.pynfi.com/api/password/reset"

  const EnterEmailMessage := "Veuillez entrer votre email"
  const EnterCodeMessage := "Veuillez entrer le code reçu par email"
  const FillAllMessage := "Veuillez remplir tous les champs"
  const PasswordTooShortMessage := "Le mot de passe doit contenir au moins 8 caractères"
  const MismatchMessage := "Les mots de passe ne correspondent pas"
  const SendFailedMessage := "Échec de l'envoi du code"
  const InvalidCodeMessage := "Code invalide"
  const ResetFailedMessage := "Échec de la réinitialisation"
  const CodeSentMessage := "Un code de vérification a été envoyé à votre email"
  const CodeVerifiedMessage := "Code vérifié ! Entrez votre nouveau mot de passe"
  const ResetDoneMessage := "Mot de passe réinitialisé avec succès ! Vous pouvez maintenant vous connecter."

  function SendCodeRequest(email: string): Request {
    Request(ForgotUrl, "POST", JsonHeaders, Some(map["email" := email]))
  }

  function VerifyCodeRequest(email: string, code: string): Request {
    Request(VerifyUrl, "POST", JsonHeaders, Some(map["email" := email, "code" := code]))
  }

  function ResetRequest(email: string, code: string, newPassword: string): Request {
    Request(ResetUrl, "POST", JsonHeaders, Some(map["email" := email, "code" := code, "newPassword" := newPassword]))
  }

  /** What one handler leaves: the error and success texts and the requests
      sent. */
  datatype Outcome = Outcome(error: string, success: string, sent: seq<Request>)

  /** One POST answered by `reply`: a non-OK reply raises the body's
      `message`, else its `error`, else `fallback`; an OK one shows `done`. */
  function Post(request: Request, reply: Reply<JsonObject>, fallback: string, done: string): Outcome {
    match reply
    case NetworkFailure(reason) => Outcome(reason, "", [request])
    case Received(Refused(_, body)) => Outcome(MessageOrError(body, fallback), "", [request])
    case Received(Accepted(_, _)) => Outcome("", done, [request])
  }

  function SendCode(email: string, reply: Reply<JsonObject>): Outcome {
    if email == "" then Outcome(EnterEmailMessage, "", [])
    else Post(SendCodeRequest(email), reply, SendFailedMessage, CodeSentMessage)
  }

  function VerifyCode(email: string, code: string, reply: Reply<JsonObject>): Outcome {
    if code == "" then Outcome(EnterCodeMessage, "", [])
    else Post(VerifyCodeRequest(email, code), reply, InvalidCodeMessage, CodeVerifiedMessage)
  }

  /** The reset checks, in order: the message of the first that fails. */
  function ResetChecks(newPassword: string, confirmPassword: string): Option<string> {
    if newPassword == "" || confirmPassword == "" then Some(FillAllMessage)
    else if JsLength(newPassword) < 8 then Some(PasswordTooShortMessage)
    else if newPassword != confirmPassword then Some(MismatchMessage)
    else None
  }

  function ResetPassword(email: string, code: string, newPassword: string, confirmPassword: string,
                         reply: Reply<JsonObject>): Outcome {
    match ResetChecks(newPassword, confirmPassword)
    case Some(message) => Outcome(message, "", [])
    case None => Post(ResetRequest(email, code, newPassword), reply, ResetFailedMessage, ResetDoneMessage)
  }

  class ForgotPasswordPage {
    var step: Stage
    var email: string
    var code: string
    var newPassword: string
    var confirmPassword: string
    var error: string
    var success: string
    var isLoading: bool
    /** The two-second timer that calls `onBack` is installed. */
    var backScheduled: bool
    ghost var sent: seq<Request>

    /** Only the last form, after a successful reset, schedules the way
        back. */
    predicate Valid()
      reads this
    {
      backScheduled ==> step == PasswordStage
    }

    constructor ()
      ensures step == EmailStage && email == "" && code == "" && newPassword == "" && confirmPassword == ""
      ensures error == "" && success == "" && !isLoading && !backScheduled && sent == [] && Valid()
    {
      step := EmailStage;
      email := "";
      code := "";
      newPassword := "";
      confirmPassword := "";
      error := "";
      success := "";
      isLoading := false;
      backScheduled := false;
      sent := [];
    }

    /** The inputs' `onChange` handlers. */
    method Enter(email': string, code': string, newPassword': string, confirmPassword': string)
      modifies this
      ensures email == email' && code == code' && newPassword == newPassword' && confirmPassword == confirmPassword'
      ensures step == old(step) && error == old(error) && success == old(success) && isLoading == old(isLoading)
      ensures backScheduled == old(backScheduled) && sent == old(sent)
    {
      email, code, newPassword, confirmPassword := email', code', newPassword', confirmPassword';
    }

    /** Sends `request`, answered by `reply`, and sets the texts the handler
        has just cleared. */
    method Exchange(request: Request, reply: Reply<JsonObject>, fallback: string, done: string)
      requires error == "" && success == ""
      modifies this
      ensures var o := Post(request, reply, fallback, done);
              error == o.error && success == o.success && sent == old(sent) + o.sent
      ensures step == old(step) && email == old(email) && code == old(code) && newPassword == old(newPassword)
      ensures confirmPassword == old(confirmPassword) && !isLoading && backScheduled == old(backScheduled)
    {
      isLoading := true;
      sent := sent + [request];
      match reply {
        case NetworkFailure(reason) =>
          error := reason;
        case Received(Refused(_, body)) =>
          error := MessageOrError(body, fallback);
        case Received(Accepted(_, _)) =>
          success := done;
      }
      isLoading := false;
    }

    /** `handleSendCode`, on the e-mail form. */
    method HandleSendCode(reply: Reply<JsonObject>)
      requires step == EmailStage
      modifies this
      ensures var o := SendCode(old(email), reply);
              error == o.error && success == o.success && sent == old(sent) + o.sent &&
              step == (if o.success != "" then CodeStage else EmailStage)
      ensures Rank(step) >= Rank(old(step))
      ensures email == old(email) && code == old(code) && newPassword == old(newPassword)
      ensures confirmPassword == old(confirmPassword) && backScheduled == old(backScheduled)
      ensures isLoading == (old(isLoading) && email == "")
    {
      error := "";
      success := "";
      if email == "" {
        error := EnterEmailMessage;
        return;
      }
      Exchange(SendCodeRequest(email), reply, SendFailedMessage, CodeSentMessage);
      if success != "" {
        step := CodeStage;
      }
    }

    /** `handleVerifyCode`, on the code form. */
    method HandleVerifyCode(reply: Reply<JsonObject>)
      requires step == CodeStage
      modifies this
      ensures var o := VerifyCode(old(email), old(code), reply);
              error == o.error && success == o.success && sent == old(sent) + o.sent &&
              step == (if o.success != "" then PasswordStage else CodeStage)
      ensures Rank(step) >= Rank(old(step))
      ensures email == old(email) && code == old(code) && newPassword == old(newPassword)
      ensures confirmPassword == old(confirmPassword) && backScheduled == old(backScheduled)
      ensures isLoading == (old(isLoading) && code == "")
    {
      error := "";
      success := "";
      if code == "" {
        error := EnterCodeMessage;
        return;
      }
      Exchange(VerifyCodeRequest(email, code), reply, InvalidCodeMessage, CodeVerifiedMessage);
      if success != "" {
        step := PasswordStage;
      }
    }

    /** `handleResetPassword`, on the new-password form. */
    method HandleResetPassword(reply: Reply<JsonObject>)
      requires step == PasswordStage
      modifies this
      ensures var o := ResetPassword(old(email), old(code), old(newPassword), old(confirmPassword), reply);
              error == o.error && success == o.success && sent == old(sent) + o.sent &&
              backScheduled == (old(backScheduled) || o.success != "")
      ensures step == PasswordStage && Valid()
      ensures email == old(email) && code == old(code) && newPassword == old(newPassword)
      ensures confirmPassword == old(confirmPassword)
      ensures isLoading == (old(isLoading) && ResetChecks(newPassword, confirmPassword).Some?)
    {
      error := "";
      success := "";
      var failed := ResetChecks(newPassword, confirmPassword);
      if failed.Some? {
        error := failed.value;
        return;
      }
      Exchange(ResetRequest(email, code, newPassword), reply, ResetFailedMessage, ResetDoneMessage);
      if success != "" {
        backScheduled := true;
      }
    }
  }

  // ---------------------------------------------------------------- lemmas

  /** Every failed exchange raises a message and shows no success; an OK
      reply shows the step's success text and nothing else. */
  lemma PostOutcome(request: Request, reply: Reply<JsonObject>, fallback: string, done: string)
    requires fallback != "" && done != ""
    ensures var o := Post(request, reply, fallback, done);
            o.sent == [request] &&
            (o.success != "" <==> reply.Received? && reply.response.Accepted?) &&
            (o.success != "" ==> o.success == done && o.error == "") &&
            (reply.Received? && reply.response.Refused? ==> o.error != "" && o.success == "")
  {
  }

  /** An empty e-mail sends nothing and keeps the step; otherwise one POST
      carries the e-mail, and the step moves on exactly for an OK reply. */
  lemma SendCodeContract(email: string, reply: Reply<JsonObject>)
    ensures email == "" ==> SendCode(email, reply) == Outcome(EnterEmailMessage, "", [])
    ensures email != "" ==> SendCode(email, reply).sent == [SendCodeRequest(email)] &&
                            SendCode(email, reply).sent[0].body.value["email"] == email
    ensures SendCode(email, reply).success != "" <==>
            email != "" && reply.Received? && reply.response.Accepted?
  {
  }

  /** An empty code sends nothing and keeps the step; otherwise one POST
      carries the e-mail and the code, and the step moves on exactly for an
      OK reply. */
  lemma VerifyCodeContract(email: string, code: string, reply: Reply<JsonObject>)
    ensures code == "" ==> VerifyCode(email, code, reply) == Outcome(EnterCodeMessage, "", [])
    ensures code != "" ==> VerifyCode(email, code, reply).sent == [VerifyCodeRequest(email, code)]
    ensures VerifyCode(email, code, reply).success != "" <==>
            code != "" && reply.Received? && reply.response.Accepted?
  {
  }

  /** A non-OK reply shows the body's `message`, else its `error`, else the
      step's default: 'Échec de l'envoi du code' when sending, 'Code
      invalide' when verifying, 'Échec de la réinitialisation' when
      resetting. */
  lemma RefusedDefaults(email: string, code: string, newPassword: string, status: ErrorStatus)
    requires email != "" && code != "" && ResetChecks(newPassword, newPassword).None?
    ensures var reply: Reply<JsonObject> := Received(Refused(status, NotJson("")));
            SendCode(email, reply).error == SendFailedMessage &&
            VerifyCode(email, code, reply).error == InvalidCodeMessage &&
            ResetPassword(email, code, newPassword, newPassword, reply).error == ResetFailedMessage
  {
  }

  /** The reset form is sent exactly when both fields are filled, the new
      password has at least 8 characters and equals its confirmation; the
      checks report in that order. */
  lemma ResetChecksContract(newPassword: string, confirmPassword: string)
    ensures ResetChecks(newPassword, confirmPassword).None? <==>
            newPassword != "" && JsLength(newPassword) >= 8 && newPassword == confirmPassword
    ensures newPassword == "" || confirmPassword == "" ==> ResetChecks(newPassword, confirmPassword) == Some(FillAllMessage)
    ensures newPassword != "" && confirmPassword != "" && JsLength(newPassword) < 8 ==>
            ResetChecks(newPassword, confirmPassword) == Some(PasswordTooShortMessage)
    ensures newPassword != "" && confirmPassword != "" && JsLength(newPassword) >= 8 && newPassword != confirmPassword ==>
            ResetChecks(newPassword, confirmPassword) == Some(MismatchMessage)
  {
  }

  /** A reset that passes the checks posts the e-mail and code of the
      earlier steps together with the new password; one that fails them
      sends nothing. */
  lemma ResetCarriesEarlierSteps(email: string, code: string, newPassword: string, confirmPassword: string,
                                 reply: Reply<JsonObject>)
    ensures var o := ResetPassword(email, code, newPassword, confirmPassword, reply);
            (ResetChecks(newPassword, confirmPassword).Some? ==> o.sent == [] && o.success == "") &&
            (ResetChecks(newPassword, confirmPassword).None? ==>
               |o.sent| == 1 && o.sent[0].url == ResetUrl &&
               o.sent[0].body == Some(map["email" := email, "code" := code, "newPassword" := newPassword]))
  {
  }
}
