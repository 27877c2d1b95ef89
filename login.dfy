/** The demo login form (components/Login.tsx): two field checks, then a
    one-second timer that hands the entered e-mail to `onLogin`. Each
    accepted submit installs one timer, which fires in submission order
    and carries the e-mail of its own submit. */
module Login {
  import opened Wrappers
  import opened Text

  const FillAllMessage := "Veuillez remplir tous les champs"
  const AdminOnlyMessage := "Accès réservé aux super administrateurs uniquement"

  /** The checks of `handleSubmit`, in order. */
  function LoginCheck(email: string, password: string): Option<string> {
    if email == "" || password == "" then Some(FillAllMessage)
    else if !Contains(email, "superadmin") then Some(AdminOnlyMessage)
    else None
  }

  class LoginForm {
    var email: string
    var password: string
    var error: string
    var isLoading: bool
    /** The e-mails captured by the timers still to fire, oldest first. */
    var pending: seq<string>

    constructor ()
      ensures email == "" && password == "" && error == "" && !isLoading && pending == []
    {
      email := "";
      password := "";
      error := "";
      isLoading := false;
      pending := [];
    }

    /** The two inputs' `onChange` handlers. */
    method Enter(email': string, password': string)
      modifies this
      ensures email == email' && password == password'
      ensures error == old(error) && isLoading == old(isLoading) && pending == old(pending)
    {
      email, password := email', password';
    }

    /** `handleSubmit`. */
    method HandleSubmit()
      modifies this
      ensures var check := LoginCheck(old(email), old(password));
              (check.Some? ==> error == check.value && pending == old(pending) && isLoading == old(isLoading)) &&
              (check.None? ==> error == "" && pending == old(pending) + [old(email)] && isLoading)
      ensures email == old(email) && password == old(password)
    {
      error := "";
      if email == "" || password == "" {
        error := FillAllMessage;
        return;
      }
      if !Contains(email, "superadmin") {
        error := AdminOnlyMessage;
        return;
      }
      isLoading := true;
      pending := pending + [email];
    }

    /** The oldest timer fires: `onLogin` receives the e-mail it captured. */
    method TimerFires() returns (loggedIn: string)
      requires |pending| > 0
      modifies this
      ensures loggedIn == old(pending[0]) && pending == old(pending[1..]) && !isLoading
      ensures email == old(email) && password == old(password) && error == old(error)
    {
      loggedIn := pending[0];
      pending := pending[1..];
      isLoading := false;
    }
  }

  // ---------------------------------------------------------------- lemmas

  /** `onLogin` is reached exactly for a filled form whose e-mail contains
      'superadmin'. */
  lemma LoginCheckAccepts(email: string, password: string)
    ensures LoginCheck(email, password).None? <==>
            email != "" && password != "" && exists k :: OccursAt(email, "superadmin", k)
  {
  }

  /** The emptiness check comes first: an empty field is reported as such
      even though its e-mail cannot contain 'superadmin'. */
  lemma EmptinessCheckedFirst(email: string, password: string)
    requires email == "" || password == ""
    ensures LoginCheck(email, password) == Some(FillAllMessage)
    ensures email == "" ==> !Contains(email, "superadmin")
  {
  }

  /** A filled form whose e-mail lacks 'superadmin' gets the admin-only
      message. */
  lemma NonAdminEmailRejected(email: string, password: string)
    requires email != "" && password != ""
    requires forall k :: !OccursAt(email, "superadmin", k)
    ensures LoginCheck(email, password) == Some(AdminOnlyMessage)
  {
  }
}
