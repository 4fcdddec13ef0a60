/** The SignUp page: the registration form, its change handler and its
    submit through the auth context. */
module SignUp {
  import opened Wrappers
  import opened AuthContext

  datatype SignUpForm = SignUpForm(
    username: string, email: string, dateOfBirth: string, gender: string,
    phoneNumber: string, password: string, passwordRepeat: string)

  /** The `name` attributes of the form's inputs. */
  datatype Field = Username | Email | DateOfBirth | Gender | PhoneNumber | Password | PasswordRepeat

  const EmptyForm := SignUpForm("", "", "", "male", "", "", "")

  function ValueOf(form: SignUpForm, field: Field): string
  {
    match field
    case Username => form.username
    case Email => form.email
    case DateOfBirth => form.dateOfBirth
    case Gender => form.gender
    case PhoneNumber => form.phoneNumber
    case Password => form.password
    case PasswordRepeat => form.passwordRepeat
  }

  /** `{ ...formData, [e.target.name]: e.target.value }`: the named field takes
      the value and every other field keeps its own. */
  function WithValue(form: SignUpForm, field: Field, value: string): (r: SignUpForm)
    ensures ValueOf(r, field) == value
    ensures forall f :: f != field ==> ValueOf(r, f) == ValueOf(form, f)
  {
    match field
    case Username => form.(username := value)
    case Email => form.(email := value)
    case DateOfBirth => form.(dateOfBirth := value)
    case Gender => form.(gender := value)
    case PhoneNumber => form.(phoneNumber := value)
    case Password => form.(password := value)
    case PasswordRepeat => form.(passwordRepeat := value)
  }

  /** Edits to different fields commute. */
  lemma EditsCommute(form: SignUpForm, f: Field, g: Field, a: string, b: string)
    requires f != g
    ensures WithValue(WithValue(form, f, a), g, b) == WithValue(WithValue(form, g, b), f, a)
  {
  }

  class SignUpPage {
    var formData: SignUpForm
    var error: string
    var loading: bool
    var navigatedTo: Option<string>

    constructor ()
      ensures formData == EmptyForm && error == "" && !loading && navigatedTo == None
    {
      formData, error, loading, navigatedTo := EmptyForm, "", false, None;
    }

    method HandleChange(field: Field, value: string)
      modifies this`formData
      ensures formData == WithValue(old(formData), field, value)
    {
      formData := WithValue(formData, field, value);
    }

    /** handleSubmit: a mismatch only sets the error and sends nothing.
        Otherwise the error is cleared and the whole form is sent; success
        goes to "/profile", failure shows the server's message (else
        "Registration failed"); loading is false once the call settles.
        Returns the form sent, if any. */
    method HandleSubmit(session: Session, response: Outcome<()>, check: Outcome<Option<User>>)
      returns (sent: Option<SignUpForm>)
      modifies this`error, this`loading, this`navigatedTo, session
      ensures formData.password != formData.passwordRepeat ==>
        sent == None && error == "Passwords do not match"
        && loading == old(loading) && navigatedTo == old(navigatedTo) && session.Current() == old(session.Current())
      ensures formData.password == formData.passwordRepeat ==>
        sent == Some(formData) && !loading
        && session.Current() == RegisterStep(old(session.Current()), response, check).next
      ensures sent.Some? && response.Success? ==> navigatedTo == Some("/profile") && error == ""
      ensures sent.Some? && response.Failure? ==>
        navigatedTo == old(navigatedTo) && error == MessageOr(response.message, "Registration failed")
    {
      if formData.password != formData.passwordRepeat {
        error := "Passwords do not match";
        return None;
      }
      error := "";
      loading := true;
      sent := Some(formData);
      var result := session.Register(response, check);
      if result.Resolved? {
        navigatedTo := Some("/profile");
      } else {
        error := MessageOr(result.message, "Registration failed");
      }
      loading := false;
    }
  }
}
