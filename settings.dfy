/** The settings page: the password-change form and its validation chain,
    the profile form and what saving it writes, the plan upgrade, and whether
    the subscription shows as active (client/src/pages/Settings.tsx). */
module Settings {
  import opened Basics
  import opened UserProfile
  import opened Subscription

  datatype PasswordForm = PasswordForm(currentPassword: string, newPassword: string, confirmPassword: string)

  const EmptyPasswordForm: PasswordForm := PasswordForm("", "", "")

  const MinPasswordLength: int := 6

  const FillAllFields: string := "Preencha todos os campos de senha"
  const PasswordsDiffer: string := "As senhas não coincidem"
  const PasswordTooShort: string := "A senha deve ter pelo menos 6 caracteres"
  const PasswordChanged: string := "Senha alterada com sucesso!"
  const PasswordChangeFailed: string := "Erro ao alterar senha. Verifique a senha atual."
  const ProfileSaved: string := "Perfil atualizado com sucesso!"
  const ProfileSaveFailed: string := "Erro ao atualizar perfil. Tente novamente."

  /** The reason a password change is refused before the auth service is
      called, or None when the form may be sent. The checks run in the page's
      order: a missing user or an empty current or new password, then a
      confirmation that differs, then a new password shorter than six
      characters; the first that fails decides the message. */
  function PasswordRejection(signedIn: bool, f: PasswordForm): (r: Option<string>)
    ensures r.None? <==>
      signedIn && f.currentPassword != "" && f.newPassword != ""
      && f.newPassword == f.confirmPassword && |f.newPassword| >= MinPasswordLength
    ensures !signedIn || f.currentPassword == "" || f.newPassword == "" ==> r == Some(FillAllFields)
    ensures r == Some(PasswordsDiffer) <==>
      signedIn && f.currentPassword != "" && f.newPassword != "" && f.newPassword != f.confirmPassword
    ensures r == Some(PasswordTooShort) <==>
      signedIn && f.currentPassword != "" && f.newPassword != ""
      && f.newPassword == f.confirmPassword && |f.newPassword| < MinPasswordLength
    ensures r.None? ==> |f.confirmPassword| >= MinPasswordLength
  {
    if !signedIn || f.currentPassword == "" || f.newPassword == "" then Some(FillAllFields)
    else if f.newPassword != f.confirmPassword then Some(PasswordsDiffer)
    else if |f.newPassword| < MinPasswordLength then Some(PasswordTooShort)
    else None
  }

  /** `error.message || fallback`: an empty message gives the fallback. */
  function MessageOr(message: string, fallback: string): (r: string)
    ensures message != "" ==> r == message
    ensures message == "" ==> r == fallback
  {
    if message != "" then message else fallback
  }

  /** The messages are distinct, so the message shown names the first check
      that failed; a short password that also mismatches its confirmation is
      reported as a mismatch, and an empty field beats both. */
  lemma {:induction false} PasswordCheckOrder(signedIn: bool, f: PasswordForm)
    ensures FillAllFields != PasswordsDiffer && PasswordsDiffer != PasswordTooShort && FillAllFields != PasswordTooShort
    ensures (signedIn && f.currentPassword != "" && f.newPassword != "" && |f.newPassword| < MinPasswordLength
             && f.newPassword != f.confirmPassword) ==> PasswordRejection(signedIn, f) == Some(PasswordsDiffer)
    ensures f.newPassword == "" ==> PasswordRejection(signedIn, f) == Some(FillAllFields)
  {
    assert FillAllFields[0] != PasswordsDiffer[0] && PasswordsDiffer[1] != PasswordTooShort[1];
    assert FillAllFields[0] != PasswordTooShort[0];
  }

  /** The profile form: every field a string, empty when unset. */
  datatype ProfileForm = ProfileForm(displayName: string, phone: string, address: string, city: string,
                                     state: string, zipCode: string, email: string)

  const EmptyProfileForm: ProfileForm := ProfileForm("", "", "", "", "", "", "")

  /** `value || ""` when the form is loaded. */
  function Shown(v: Option<string>): (r: string)
    ensures v.Some? ==> r == v.value
    ensures v.None? ==> r == ""
  {
    if v.Some? then v.value else ""
  }

  /** The form as loaded from a profile and the signed-in account's email. */
  function FormFromProfile(p: Profile, authEmail: Option<string>): ProfileForm
  {
    var d := p.personal;
    ProfileForm(Shown(d.displayName), Shown(d.phone), Shown(d.address), Shown(d.city),
                Shown(d.state), Shown(d.zipCode), Shown(authEmail))
  }

  /** `value || undefined` when the form is saved: an empty field is not sent. */
  function Submitted(s: string): (r: Option<string>)
    ensures r.None? <==> s == ""
    ensures r.Some? ==> r.value == s
  {
    if s == "" then None else Some(s)
  }

  function ProfileUpdateFrom(f: ProfileForm): PersonalUpdate
  {
    PersonalUpdate(Submitted(f.displayName), Submitted(f.phone), Submitted(f.address),
                   Submitted(f.city), Submitted(f.state), Submitted(f.zipCode))
  }

  /** The address sent to the auth service: the form's, when it differs from
      the account's. */
  function EmailChange(f: ProfileForm, authEmail: Option<string>): (r: Option<string>)
    ensures r.Some? <==> authEmail != Some(f.email)
    ensures r.Some? ==> r.value == f.email
  {
    if authEmail != Some(f.email) then Some(f.email) else None
  }

  /** Saving a form writes every filled field and keeps the stored value of
      every emptied one; nothing outside the personal data changes. */
  lemma {:induction false} SaveWritesFilledFields(p: Profile, f: ProfileForm)
    ensures var d := UpdatePersonal(p, ProfileUpdateFrom(f)).personal;
      && d.displayName == (if f.displayName == "" then p.personal.displayName else Some(f.displayName))
      && d.phone == (if f.phone == "" then p.personal.phone else Some(f.phone))
      && d.address == (if f.address == "" then p.personal.address else Some(f.address))
      && d.city == (if f.city == "" then p.personal.city else Some(f.city))
      && d.state == (if f.state == "" then p.personal.state else Some(f.state))
      && d.zipCode == (if f.zipCode == "" then p.personal.zipCode else Some(f.zipCode))
    ensures UpdatePersonal(p, ProfileUpdateFrom(f)).(personal := p.personal) == p
  {
  }

  /** Loading a form and saving it untouched changes neither the profile nor,
      for an account with an email, the email. */
  lemma {:induction false} UneditedSaveChangesNothing(p: Profile, email: string)
    ensures UpdatePersonal(p, ProfileUpdateFrom(FormFromProfile(p, Some(email)))) == p
    ensures EmailChange(FormFromProfile(p, Some(email)), Some(email)).None?
  {
    var f := FormFromProfile(p, Some(email));
    var d := p.personal;
    SaveWritesFilledFields(p, f);
    assert f.displayName == "" ==> d.displayName == None || d.displayName == Some("");
    assert UpdatePersonal(p, ProfileUpdateFrom(f)).personal == d;
  }

  /** `isActive`: a loaded profile on the basic plan, or with days left. */
  function SettingsIsActive(profile: Option<Profile>, now: int): bool
  {
    profile.Some? &&
    (profile.value.subscriptionPlan == Some(Basic) || GetDaysRemaining(profile.value.subscriptionEndDate, now) > 0)
  }

  /** The page's rule agrees with `isSubscriptionActive` for every profile and
      every clock; with no profile loaded nothing is active. */
  lemma {:induction false} SettingsAgreesWithProfile(p: Profile, now: int)
    ensures SettingsIsActive(Some(p), now) <==> IsSubscriptionActive(p, now)
    ensures !SettingsIsActive(None, now)
  {
  }

  /** The upgrade toast names the plan chosen. */
  function UpgradeMessage(plan: Plan): (m: string)
    ensures exists k :: 0 <= k < |Plans| && Plans[k].id == plan && m == "Plano " + Plans[k].name + " ativado com sucesso!"
  {
    PlanCatalogue(plan);
    var info := FindIn(Plans, plan);
    "Plano " + info.value.name + " ativado com sucesso!"
  }

  class SettingsPage {
    const user: Option<UserId>
    const store: ProfileStore
    var currentPlan: Plan
    var passwordForm: PasswordForm
    var profileForm: ProfileForm
    var editingProfile: bool

    constructor (user: Option<UserId>, store: ProfileStore)
      ensures this.user == user && this.store == store
      ensures currentPlan == Basic && passwordForm == EmptyPasswordForm
      ensures profileForm == EmptyProfileForm && !editingProfile
    {
      this.user := user;
      this.store := store;
      currentPlan := Basic;
      passwordForm := EmptyPasswordForm;
      profileForm := EmptyProfileForm;
      editingProfile := false;
    }

    /** `loadProfile`: reads (and if need be creates) the profile, shows its
        plan, basic when it has none, and fills the profile form. */
    method LoadProfile(authEmail: Option<string>)
      modifies this, store
      ensures passwordForm == old(passwordForm) && editingProfile == old(editingProfile)
      ensures user.None? ==> store.docs == old(store.docs) && currentPlan == old(currentPlan) && profileForm == old(profileForm)
      ensures user.Some? ==>
        var p := Fetch(old(store.docs), user.value);
        store.docs == old(store.docs)[user.value := p]
        && currentPlan == GetCurrentPlan(p) && profileForm == FormFromProfile(p, authEmail)
      ensures old(store.Valid()) ==> store.Valid()
    {
      if user.None? {
        return;
      }
      var p := store.GetUserProfile(user.value);
      currentPlan := if p.subscriptionPlan.Some? then p.subscriptionPlan.value else Basic;
      var d := p.personal;
      profileForm := ProfileForm(Shown(d.displayName), Shown(d.phone), Shown(d.address), Shown(d.city),
                                 Shown(d.state), Shown(d.zipCode), Shown(authEmail));
    }

    /** `handleChangePassword`. `authFailure` is the message of the error the
        reauthentication or the update throws, None when both succeed. The
        auth service is called only when every check passes; only a
        successful change clears the three fields. */
    method HandleChangePassword(authFailure: Option<string>) returns (toast: Toast, authCalled: bool)
      modifies this
      ensures currentPlan == old(currentPlan) && profileForm == old(profileForm) && editingProfile == old(editingProfile)
      ensures authCalled <==> PasswordRejection(user.Some?, old(passwordForm)).None?
      ensures !authCalled ==>
        toast == ErrorToast(PasswordRejection(user.Some?, old(passwordForm)).value) && passwordForm == old(passwordForm)
      ensures authCalled && authFailure.None? ==>
        toast == SuccessToast(PasswordChanged) && passwordForm == EmptyPasswordForm
      ensures authCalled && authFailure.Some? ==>
        toast == ErrorToast(MessageOr(authFailure.value, PasswordChangeFailed)) && passwordForm == old(passwordForm)
    {
      authCalled := false;
      if user.None? || passwordForm.currentPassword == "" || passwordForm.newPassword == "" {
        return ErrorToast(FillAllFields), false;
      }
      if passwordForm.newPassword != passwordForm.confirmPassword {
        return ErrorToast(PasswordsDiffer), false;
      }
      if |passwordForm.newPassword| < MinPasswordLength {
        return ErrorToast(PasswordTooShort), false;
      }
      authCalled := true;
      if authFailure.Some? {
        toast := ErrorToast(MessageOr(authFailure.value, PasswordChangeFailed));
      } else {
        toast := SuccessToast(PasswordChanged);
        passwordForm := EmptyPasswordForm;
      }
    }

    /** `handleSaveProfile`. Writes the filled fields, then sends the email to
        the auth service when it changed; `emailFailure` is the message of
        the error that call throws. A failure keeps the form open. */
    method HandleSaveProfile(authEmail: Option<string>, emailFailure: Option<string>)
      returns (toast: Toast, emailSent: Option<string>)
      modifies this, store
      ensures currentPlan == old(currentPlan) && passwordForm == old(passwordForm) && profileForm == old(profileForm)
      ensures user.None? ==>
        toast == NoToast && emailSent.None? && store.docs == old(store.docs) && editingProfile == old(editingProfile)
      ensures user.Some? ==>
        && store.docs == old(store.docs)[user.value :=
             UpdatePersonal(Fetch(old(store.docs), user.value), ProfileUpdateFrom(profileForm))]
        && emailSent == EmailChange(profileForm, authEmail)
        && (emailSent.Some? && emailFailure.Some? ==>
              toast == ErrorToast(MessageOr(emailFailure.value, ProfileSaveFailed)) && editingProfile == old(editingProfile))
        && (emailSent.None? || emailFailure.None? ==> toast == SuccessToast(ProfileSaved) && !editingProfile)
      ensures old(store.Valid()) ==> store.Valid()
    {
      emailSent := None;
      if user.None? {
        return NoToast, None;
      }
      store.UpdateUserProfileData(user.value, ProfileUpdateFrom(profileForm));
      if authEmail != Some(profileForm.email) {
        emailSent := Some(profileForm.email);
        if emailFailure.Some? {
          return ErrorToast(MessageOr(emailFailure.value, ProfileSaveFailed)), emailSent;
        }
      }
      toast := SuccessToast(ProfileSaved);
      editingProfile := false;
    }

    /** `handleUpgrade`: moves the user to `plan` from `now` to `endDate` (one
        month on, computed by the caller) and names the plan in the toast. */
    method HandleUpgrade(plan: Plan, now: int, endDate: int) returns (toast: Toast)
      modifies store
      ensures user.None? ==> toast == NoToast && store.docs == old(store.docs)
      ensures user.Some? ==>
        store.docs == old(store.docs)[user.value := SetPlan(Fetch(old(store.docs), user.value), plan, now, endDate)]
        && toast == SuccessToast(UpgradeMessage(plan))
      ensures old(store.Valid()) ==> store.Valid()
    {
      if user.None? {
        return NoToast;
      }
      store.UpdateSubscriptionPlan(user.value, plan, now, endDate);
      toast := SuccessToast(UpgradeMessage(plan));
    }
  }
}
