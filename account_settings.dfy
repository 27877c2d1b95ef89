/** The account page (components/superadmin/AccountSettings.tsx): the
    profile loaded from the store with the full name split at its first
    space, the profile update, the password change and the notification
    preferences. The three service calls are oracles: `updateProfile` and
    `changePassword` either resolve or throw, `logActivity` never throws. */
module AccountSettings {
  import opened Wrappers
  import opened Text
  import opened Http
  import opened Browser

  const UserNameKey := "ugate_user_name"
  const UserEmailKey := "ugate_user_email"
  const SuperAdminRole := "SUPER_ADMIN"

  const ProfileRequiredMessage := "Veuillez remplir tous les champs obligatoires"
  const ProfileSavedMessage := "Profil mis à jour avec succès"
  const ProfileFailedMessage := "Erreur lors de la mise à jour du profil"
  const PasswordRequiredMessage := "Veuillez remplir tous les champs du mot de passe"
  const PasswordMismatchMessage := "Les nouveaux mots de passe ne correspondent pas"
  const PasswordTooShortMessage := "Le nouveau mot de passe doit contenir au moins 8 caractères"
  const PasswordChangedMessage := "Mot de passe modifié avec succès"
  const PasswordFailedMessage := "Erreur lors du changement de mot de passe. Vérifiez votre mot de passe actuel."
  const NotificationsSavedMessage := "Préférences de notification mises à jour"

  datatype Profile = Profile(firstName: string, lastName: string, email: string, phone: string, role: string)
  datatype PasswordForm = PasswordForm(currentPassword: string, newPassword: string, confirmPassword: string)
  datatype Notifications = Notifications(emailNotifications: bool, syndicatApproval: bool, paymentAlerts: bool,
                                         systemUpdates: bool)

  const EmptyProfile := Profile("", "", "", "", SuperAdminRole)
  const EmptyPasswords := PasswordForm("", "", "")
  const DefaultNotifications := Notifications(true, true, true, false)

  /** What the page asks of the super-admin service. */
  datatype ServiceCall =
    | UpdateProfile(firstName: string, lastName: string, email: string, phone: string)
    | ChangePassword(currentPassword: string, newPassword: string)
    | LogActivity(action: string)

  /** `localStorage.getItem(key) || ''`. */
  function StoredText(st: map<string, string>, key: string): (v: string)
    ensures key in st ==> v == st[key]
    ensures key !in st ==> v == ""
  {
    if key in st then st[key] else ""
  }

  // ---------------------------------------------------------------- the name split

  datatype NameParts = NameParts(firstName: string, lastName: string)

  /** `userName.split(' ')`: the first piece, and the others joined back
      with spaces. */
  function SplitFullName(name: string): NameParts {
    var parts := Split(name, ' ');
    NameParts(parts[0], Join(parts[1..], ' '))
  }

  /** The first name is the text before the first space and the last name
      everything after it; a name without a space is all first name. */
  lemma SplitFullNameMeaning(name: string)
    ensures ' ' !in name ==> SplitFullName(name) == NameParts(name, "")
    ensures ' ' in name ==>
              var k := IndexOf(name, ' ');
              SplitFullName(name) == NameParts(name[..k], name[k + 1..])
  {
    if ' ' in name {
      var k := IndexOf(name, ' ');
      JoinSplit(name[k + 1..], ' ');
    }
  }

  /** Storing `first + " " + last` and splitting it again gives back both
      names exactly when the first name holds no space. */
  lemma FullNameRoundTrip(first: string, last: string)
    ensures SplitFullName(first + " " + last) == NameParts(first, last) <==> ' ' !in first
  {
    var full := first + " " + last;
    SplitFullNameMeaning(full);
    if ' ' !in first {
      assert full[|first|] == ' ';
      assert full[..|first|] == first;
      IndexOfFirst(full, ' ', |first|);
      assert full[|first| + 1..] == last;
    } else {
      var k := IndexOf(first, ' ');
      assert full[k] == ' ' && full[..k] == first[..k];
      IndexOfFirst(full, ' ', k);
      assert |full[..k]| < |first|;
    }
  }

  // ---------------------------------------------------------------- checks

  function ProfileCheck(p: Profile): Option<string> {
    if p.firstName == "" || p.lastName == "" || p.email == "" then Some(ProfileRequiredMessage) else None
  }

  /** The password checks, in order: the message of the first that fails. */
  function PasswordChecks(pw: PasswordForm): Option<string> {
    if pw.currentPassword == "" || pw.newPassword == "" || pw.confirmPassword == "" then Some(PasswordRequiredMessage)
    else if pw.newPassword != pw.confirmPassword then Some(PasswordMismatchMessage)
    else if JsLength(pw.newPassword) < 8 then Some(PasswordTooShortMessage)
    else None
  }

  // ---------------------------------------------------------------- handler outcomes

  /** What `handleProfileUpdate` leaves: the texts, the store and the calls
      made, with `updateProfile` resolving exactly when `accepted`. */
  datatype ProfileOutcome = ProfileOutcome(error: string, success: string, storage: map<string, string>,
                                           calls: seq<ServiceCall>)

  function ProfileUpdate(p: Profile, st: map<string, string>, accepted: bool): ProfileOutcome {
    match ProfileCheck(p)
    case Some(message) => ProfileOutcome(message, "", st, [])
    case None =>
      var update := UpdateProfile(p.firstName, p.lastName, p.email, p.phone);
      if !accepted then ProfileOutcome(ProfileFailedMessage, "", st, [update])
      else ProfileOutcome("", ProfileSavedMessage,
                          st[UserNameKey := p.firstName + " " + p.lastName][UserEmailKey := p.email],
                          [update, LogActivity("UPDATE_PROFILE")])
  }

  datatype PasswordOutcome = PasswordOutcome(error: string, success: string, passwords: PasswordForm,
                                             showFields: bool, calls: seq<ServiceCall>)

  function PasswordUpdate(pw: PasswordForm, showFields: bool, accepted: bool): PasswordOutcome {
    match PasswordChecks(pw)
    case Some(message) => PasswordOutcome(message, "", pw, showFields, [])
    case None =>
      var change := ChangePassword(pw.currentPassword, pw.newPassword);
      if !accepted then PasswordOutcome(PasswordFailedMessage, "", pw, showFields, [change])
      else PasswordOutcome("", PasswordChangedMessage, EmptyPasswords, false,
                           [change, LogActivity("CHANGE_PASSWORD")])
  }

  class AccountSettingsPage {
    var showPasswordFields: bool
    var isLoading: bool
    var successMessage: string
    var errorMessage: string
    var profile: Profile
    var passwords: PasswordForm
    var notifications: Notifications
    /** The three-second timer that clears the success message. */
    var clearScheduled: bool
    const window: Window
    ghost var calls: seq<ServiceCall>

    /** The role shown is always SUPER_ADMIN. */
    predicate Valid()
      reads this
    {
      profile.role == SuperAdminRole
    }

    constructor (window: Window)
      ensures profile == EmptyProfile && passwords == EmptyPasswords && notifications == DefaultNotifications
      ensures !showPasswordFields && !isLoading && successMessage == "" && errorMessage == ""
      ensures !clearScheduled && calls == [] && this.window == window && Valid()
    {
      showPasswordFields := false;
      isLoading := false;
      successMessage := "";
      errorMessage := "";
      profile := EmptyProfile;
      passwords := EmptyPasswords;
      notifications := DefaultNotifications;
      clearScheduled := false;
      this.window := window;
      calls := [];
    }

    /** The mount effect: the profile from the stored name and e-mail. */
    method LoadProfile()
      modifies this
      ensures var parts := SplitFullName(StoredText(window.storage, UserNameKey));
              profile == Profile(parts.firstName, parts.lastName, StoredText(window.storage, UserEmailKey), "",
                                 SuperAdminRole)
      ensures Valid() && passwords == old(passwords) && notifications == old(notifications)
      ensures showPasswordFields == old(showPasswordFields) && isLoading == old(isLoading)
      ensures successMessage == old(successMessage) && errorMessage == old(errorMessage)
      ensures clearScheduled == old(clearScheduled) && calls == old(calls)
    {
      var userEmail := window.GetItem(UserEmailKey).GetOr("");
      var userName := window.GetItem(UserNameKey).GetOr("");
      var nameParts := SplitFullName(userName);
      profile := Profile(nameParts.firstName, nameParts.lastName, userEmail, "", SuperAdminRole);
    }

    /** The four profile inputs' `onChange` handlers. */
    method EditProfile(firstName: string, lastName: string, email: string, phone: string)
      modifies this
      ensures profile == old(profile).(firstName := firstName, lastName := lastName, email := email, phone := phone)
      ensures passwords == old(passwords) && notifications == old(notifications)
      ensures showPasswordFields == old(showPasswordFields) && isLoading == old(isLoading)
      ensures successMessage == old(successMessage) && errorMessage == old(errorMessage)
      ensures clearScheduled == old(clearScheduled) && calls == old(calls)
    {
      profile := profile.(firstName := firstName, lastName := lastName, email := email, phone := phone);
    }

    /** The three password inputs' `onChange` handlers. */
    method EditPasswords(pw: PasswordForm)
      modifies this
      ensures passwords == pw
      ensures profile == old(profile) && notifications == old(notifications)
      ensures showPasswordFields == old(showPasswordFields) && isLoading == old(isLoading)
      ensures successMessage == old(successMessage) && errorMessage == old(errorMessage)
      ensures clearScheduled == old(clearScheduled) && calls == old(calls)
    {
      passwords := pw;
    }

    /** The four checkboxes' `onChange` handlers. */
    method EditNotifications(n: Notifications)
      modifies this
      ensures notifications == n
      ensures profile == old(profile) && passwords == old(passwords)
      ensures showPasswordFields == old(showPasswordFields) && isLoading == old(isLoading)
      ensures successMessage == old(successMessage) && errorMessage == old(errorMessage)
      ensures clearScheduled == old(clearScheduled) && calls == old(calls)
    {
      notifications := n;
    }

    /** The button that opens the password fields, and the one that closes
        them and clears them. */
    method SetPasswordFieldsShown(shown: bool)
      modifies this
      ensures showPasswordFields == shown
      ensures passwords == (if shown then old(passwords) else EmptyPasswords)
      ensures profile == old(profile) && notifications == old(notifications) && isLoading == old(isLoading)
      ensures successMessage == old(successMessage) && errorMessage == old(errorMessage)
      ensures clearScheduled == old(clearScheduled) && calls == old(calls)
    {
      showPasswordFields := shown;
      if !shown {
        passwords := EmptyPasswords;
      }
    }

    /** `handleProfileUpdate`, with `updateProfile` resolving exactly when
        `accepted`. */
    method HandleProfileUpdate(accepted: bool)
      modifies this, window
      ensures var o := ProfileUpdate(old(profile), old(window.storage), accepted);
              errorMessage == o.error && successMessage == o.success && window.storage == o.storage &&
              calls == old(calls) + o.calls && clearScheduled == (old(clearScheduled) || o.success != "")
      ensures !isLoading && profile == old(profile) && passwords == old(passwords)
      ensures notifications == old(notifications) && showPasswordFields == old(showPasswordFields)
      ensures window.sent == old(window.sent) && window.redirectedHome == old(window.redirectedHome)
      ensures window.reloadRequested == old(window.reloadRequested)
    {
      isLoading := true;
      errorMessage := "";
      successMessage := "";
      var invalid := ProfileCheck(profile);
      if invalid.Some? {
        errorMessage := invalid.value;
        isLoading := false;
        return;
      }
      calls := calls + [UpdateProfile(profile.firstName, profile.lastName, profile.email, profile.phone)];
      if !accepted {
        errorMessage := ProfileFailedMessage;
        isLoading := false;
        return;
      }
      window.SetItem(UserNameKey, profile.firstName + " " + profile.lastName);
      window.SetItem(UserEmailKey, profile.email);
      calls := calls + [LogActivity("UPDATE_PROFILE")];
      successMessage := ProfileSavedMessage;
      clearScheduled := true;
      isLoading := false;
    }

    /** `handlePasswordChange`, with `changePassword` resolving exactly when
        `accepted`. */
    method HandlePasswordChange(accepted: bool)
      modifies this
      ensures var o := PasswordUpdate(old(passwords), old(showPasswordFields), accepted);
              errorMessage == o.error && successMessage == o.success && passwords == o.passwords &&
              showPasswordFields == o.showFields && calls == old(calls) + o.calls &&
              clearScheduled == (old(clearScheduled) || o.success != "")
      ensures !isLoading && profile == old(profile) && notifications == old(notifications)
    {
      isLoading := true;
      errorMessage := "";
      successMessage := "";
      var invalid := PasswordChecks(passwords);
      if invalid.Some? {
        errorMessage := invalid.value;
        isLoading := false;
        return;
      }
      calls := calls + [ChangePassword(passwords.currentPassword, passwords.newPassword)];
      if !accepted {
        errorMessage := PasswordFailedMessage;
        isLoading := false;
        return;
      }
      calls := calls + [LogActivity("CHANGE_PASSWORD")];
      successMessage := PasswordChangedMessage;
      passwords := EmptyPasswords;
      showPasswordFields := false;
      clearScheduled := true;
      isLoading := false;
    }

    /** `handleNotificationUpdate`: the only call is `logActivity`, which
        never throws, so it always succeeds. */
    method HandleNotificationUpdate()
      modifies this
      ensures errorMessage == "" && successMessage == NotificationsSavedMessage && clearScheduled
      ensures calls == old(calls) + [LogActivity("UPDATE_NOTIFICATION_SETTINGS")]
      ensures !isLoading && profile == old(profile) && passwords == old(passwords)
      ensures notifications == old(notifications) && showPasswordFields == old(showPasswordFields)
    {
      isLoading := true;
      errorMessage := "";
      successMessage := "";
      calls := calls + [LogActivity("UPDATE_NOTIFICATION_SETTINGS")];
      successMessage := NotificationsSavedMessage;
      clearScheduled := true;
      isLoading := false;
    }

    /** The three-second timer fires and clears the success message. */
    method ClearTimerFires()
      requires clearScheduled
      modifies this
      ensures successMessage == "" && !clearScheduled
      ensures errorMessage == old(errorMessage) && isLoading == old(isLoading) && profile == old(profile)
      ensures passwords == old(passwords) && notifications == old(notifications) && calls == old(calls)
      ensures showPasswordFields == old(showPasswordFields)
    {
      successMessage := "";
      clearScheduled := false;
    }
  }

  // ---------------------------------------------------------------- lemmas

  /** A profile with an empty first name, last name or e-mail is refused
      before any call, and the store is untouched. */
  lemma ProfileInvalidNoCall(p: Profile, st: map<string, string>, accepted: bool)
    requires p.firstName == "" || p.lastName == "" || p.email == ""
    ensures ProfileUpdate(p, st, accepted) == ProfileOutcome(ProfileRequiredMessage, "", st, [])
  {
  }

  /** The store changes only after `updateProfile` resolved, and then only
      in the name and e-mail entries. */
  lemma ProfileStoredAfterSuccess(p: Profile, st: map<string, string>, accepted: bool)
    ensures var o := ProfileUpdate(p, st, accepted);
            (o.storage != st ==> accepted && ProfileCheck(p).None?) &&
            (o.success != "" <==> accepted && ProfileCheck(p).None?) &&
            o.storage.Keys <= st.Keys + {UserNameKey, UserEmailKey} &&
            (forall k :: k in st && k != UserNameKey && k != UserEmailKey ==> o.storage[k] == st[k])
  {
  }

  /** Reloading the page after a successful update shows the saved e-mail,
      and shows both names again exactly when the first name holds no
      space. */
  lemma ProfileReloaded(p: Profile, st: map<string, string>)
    requires ProfileCheck(p).None?
    ensures var o := ProfileUpdate(p, st, true);
            StoredText(o.storage, UserEmailKey) == p.email &&
            (SplitFullName(StoredText(o.storage, UserNameKey)) == NameParts(p.firstName, p.lastName) <==>
             ' ' !in p.firstName)
  {
    var o := ProfileUpdate(p, st, true);
    assert o.storage[UserNameKey] == p.firstName + " " + p.lastName;
    FullNameRoundTrip(p.firstName, p.lastName);
  }

  /** A password change is attempted exactly when all three fields are
      filled, the new password equals its confirmation and has at least 8
      characters; the mismatch is reported before the length. */
  lemma PasswordChecksContract(pw: PasswordForm)
    ensures PasswordChecks(pw).None? <==>
            pw.currentPassword != "" && pw.newPassword != "" && pw.confirmPassword != "" &&
            pw.newPassword == pw.confirmPassword && JsLength(pw.newPassword) >= 8
    ensures (pw.currentPassword != "" && pw.newPassword != "" && pw.confirmPassword != "" &&
             pw.newPassword != pw.confirmPassword) ==> PasswordChecks(pw) == Some(PasswordMismatchMessage)
    ensures pw.currentPassword == "" || pw.newPassword == "" || pw.confirmPassword == "" ==>
            PasswordChecks(pw) == Some(PasswordRequiredMessage)
    ensures (pw.currentPassword != "" && pw.newPassword != "" && pw.newPassword == pw.confirmPassword &&
             JsLength(pw.newPassword) < 8) ==> PasswordChecks(pw) == Some(PasswordTooShortMessage)
  {
  }

  /** A successful change empties the three fields and hides them; a
      refused or failed one keeps both as they were. */
  lemma PasswordChangeClears(pw: PasswordForm, showFields: bool, accepted: bool)
    ensures var o := PasswordUpdate(pw, showFields, accepted);
            (o.success != "" <==> accepted && PasswordChecks(pw).None?) &&
            (o.success != "" ==> o.passwords == EmptyPasswords && !o.showFields && o.error == "" &&
                                 o.calls == [ChangePassword(pw.currentPassword, pw.newPassword),
                                             LogActivity("CHANGE_PASSWORD")]) &&
            (o.success == "" ==> o.passwords == pw && o.showFields == showFields && o.error != "") &&
            (PasswordChecks(pw).Some? ==> o.calls == [])
  {
  }
}
