/** The Profile page: the profile form filled from the user, the password
    form, their change handlers and their submits through the auth context. */
module Profile {
  import opened Wrappers
  import opened AuthContext

  datatype ProfileForm = ProfileForm(
    username: string, email: string, dateOfBirth: string, gender: string, phoneNumber: string)

  datatype PasswordForm = PasswordForm(currentPassword: string, newPassword: string, newPasswordRepeat: string)

  /** The `name` attributes of the profile form's inputs. */
  datatype ProfileField = Username | Email | DateOfBirth | Gender | PhoneNumber

  /** The `name` attributes of the password form's inputs. */
  datatype PasswordField = CurrentPassword | NewPassword | NewPasswordRepeat

  const EmptyProfileForm := ProfileForm("", "", "", "male", "")
  const EmptyPasswordForm := PasswordForm("", "", "")

  function ProfileValue(form: ProfileForm, field: ProfileField): string
  {
    match field
    case Username => form.username
    case Email => form.email
    case DateOfBirth => form.dateOfBirth
    case Gender => form.gender
    case PhoneNumber => form.phoneNumber
  }

  function PasswordValue(form: PasswordForm, field: PasswordField): string
  {
    match field
    case CurrentPassword => form.currentPassword
    case NewPassword => form.newPassword
    case NewPasswordRepeat => form.newPasswordRepeat
  }

  /** `{ ...profileForm, [e.target.name]: e.target.value }`: the named field
      takes the value and every other field keeps its own. */
  function WithProfileValue(form: ProfileForm, field: ProfileField, value: string): (r: ProfileForm)
    ensures ProfileValue(r, field) == value
    ensures forall f :: f != field ==> ProfileValue(r, f) == ProfileValue(form, f)
  {
    match field
    case Username => form.(username := value)
    case Email => form.(email := value)
    case DateOfBirth => form.(dateOfBirth := value)
    case Gender => form.(gender := value)
    case PhoneNumber => form.(phoneNumber := value)
  }

  /** `{ ...passwordForm, [e.target.name]: e.target.value }` */
  function WithPasswordValue(form: PasswordForm, field: PasswordField, value: string): (r: PasswordForm)
    ensures PasswordValue(r, field) == value
    ensures forall f :: f != field ==> PasswordValue(r, f) == PasswordValue(form, f)
  {
    match field
    case CurrentPassword => form.(currentPassword := value)
    case NewPassword => form.(newPassword := value)
    case NewPasswordRepeat => form.(newPasswordRepeat := value)
  }

  /** Typing the value a field already holds changes nothing, and the last
      of two edits to one field wins. */
  lemma ProfileEditLaws(form: ProfileForm, field: ProfileField, a: string, b: string)
    ensures WithProfileValue(form, field, ProfileValue(form, field)) == form
    ensures WithProfileValue(WithProfileValue(form, field, a), field, b) == WithProfileValue(form, field, b)
  {
  }

  /** `s.split('T')[0]`: everything before the first 'T', or all of `s`. */
  function DatePart(s: string): (r: string)
    ensures r <= s
    ensures forall i :: 0 <= i < |r| ==> r[i] != 'T'
    ensures |r| < |s| ==> s[|r|] == 'T'
  {
    if s == [] || s[0] == 'T' then [] else [s[0]] + DatePart(s[1..])
  }

  /** The form the effect on `[user]` builds. The stored date of birth is
      taken to be an ISO timestamp already, so `toISOString` returns it
      unchanged and only the date part is kept. */
  function FormFromUser(u: User): (r: ProfileForm)
    ensures r.username == u.username && r.email == u.email && r.gender == u.gender
    ensures r.phoneNumber == u.phoneNumber
    ensures r.dateOfBirth == DatePart(u.dateOfBirth)
    ensures r.dateOfBirth <= u.dateOfBirth && forall i :: 0 <= i < |r.dateOfBirth| ==> r.dateOfBirth[i] != 'T'
    ensures |r.dateOfBirth| < |u.dateOfBirth| ==> u.dateOfBirth[|r.dateOfBirth|] == 'T'
  {
    ProfileForm(u.username, u.email, DatePart(u.dateOfBirth), u.gender, u.phoneNumber)
  }

  /** A date already in `YYYY-MM-DD` form passes through unchanged. */
  lemma {:induction false} DatePartOfPlainDate(s: string)
    requires forall i :: 0 <= i < |s| ==> s[i] != 'T'
    ensures DatePart(s) == s
    decreases |s|
  {
    if s != [] {
      DatePartOfPlainDate(s[1..]);
    }
  }

  /** The date part of `date + "T" + time` is `date` when `date` has no 'T'. */
  lemma DatePartOfTimestamp(date: string, time: string)
    requires forall i :: 0 <= i < |date| ==> date[i] != 'T'
    ensures DatePart(date + "T" + time) == date
  {
    var s := date + "T" + time;
    assert s[|date|] == 'T';
    assert forall i :: 0 <= i < |date| ==> s[i] == date[i];
  }

  class ProfilePage {
    var profileForm: ProfileForm
    var passwordForm: PasswordForm
    var profileError: string
    var passwordError: string
    var profileSuccess: string
    var passwordSuccess: string

    constructor ()
      ensures profileForm == EmptyProfileForm && passwordForm == EmptyPasswordForm
      ensures profileError == "" && passwordError == "" && profileSuccess == "" && passwordSuccess == ""
    {
      profileForm, passwordForm := EmptyProfileForm, EmptyPasswordForm;
      profileError, passwordError, profileSuccess, passwordSuccess := "", "", "", "";
    }

    /** The effect on `[user]`: a logged-in user refills the profile form;
        without one the form is left as it is. */
    method SyncFromUser(user: Option<User>)
      modifies this`profileForm
      ensures user.Some? ==> profileForm == FormFromUser(user.value)
      ensures user.None? ==> profileForm == old(profileForm)
    {
      if user.Some? {
        profileForm := FormFromUser(user.value);
      }
    }

    method HandleProfileChange(field: ProfileField, value: string)
      modifies this`profileForm
      ensures profileForm == WithProfileValue(old(profileForm), field, value)
    {
      profileForm := WithProfileValue(profileForm, field, value);
    }

    method HandlePasswordChange(field: PasswordField, value: string)
      modifies this`passwordForm
      ensures passwordForm == WithPasswordValue(old(passwordForm), field, value)
    {
      passwordForm := WithPasswordValue(passwordForm, field, value);
    }

    /** handleProfileSubmit: clears both messages, sends the form, and shows
        the success text or the server's message (else "Update failed"). */
    method HandleProfileSubmit(session: Session, response: Outcome<Option<User>>)
      modifies this`profileError, this`profileSuccess, session
      ensures session.Current() == UpdateProfileStep(old(session.Current()), response).next
      ensures response.Success? ==> profileSuccess == "Profile updated successfully" && profileError == ""
      ensures response.Failure? ==>
        profileSuccess == "" && profileError == MessageOr(response.message, "Update failed")
    {
      profileError := "";
      profileSuccess := "";
      var result := session.UpdateProfile(response);
      if result.Resolved? {
        profileSuccess := "Profile updated successfully";
      } else {
        profileError := MessageOr(result.message, "Update failed");
      }
    }

    /** handlePasswordSubmit: a mismatch only sets the error (the success
        text is left as it was) and sends nothing. Otherwise both messages are
        cleared and the form is sent; success shows the success text and
        empties the form, failure shows the server's message (else "Update
        failed") and keeps the form. Returns the form sent, if any. */
    method HandlePasswordSubmit(session: Session, response: Outcome<()>) returns (sent: Option<PasswordForm>)
      modifies this`passwordForm, this`passwordError, this`passwordSuccess
      ensures old(passwordForm.newPassword) != old(passwordForm.newPasswordRepeat) ==>
        sent == None && passwordError == "Passwords do not match"
        && passwordSuccess == old(passwordSuccess) && passwordForm == old(passwordForm)
      ensures old(passwordForm.newPassword) == old(passwordForm.newPasswordRepeat) ==> sent == Some(old(passwordForm))
      ensures sent.Some? && response.Success? ==>
        passwordSuccess == "Password updated successfully" && passwordError == "" && passwordForm == EmptyPasswordForm
      ensures sent.Some? && response.Failure? ==>
        passwordSuccess == "" && passwordError == MessageOr(response.message, "Update failed")
        && passwordForm == old(passwordForm)
    {
      if passwordForm.newPassword != passwordForm.newPasswordRepeat {
        passwordError := "Passwords do not match";
        return None;
      }
      passwordError := "";
      passwordSuccess := "";
      sent := Some(passwordForm);
      var result := session.UpdatePassword(response);
      if result.Resolved? {
        passwordSuccess := "Password updated successfully";
        passwordForm := EmptyPasswordForm;
      } else {
        passwordError := MessageOr(result.message, "Update failed");
      }
    }

    /** handleLogout */
    method HandleLogout(session: Session, response: Outcome<()>)
      modifies session
      ensures session.Current() == LogoutStep(old(session.Current()), response)
    {
      session.Logout(response);
    }
  }
}
