/** The Login page: the credentials form, its change handler and its submit
    through the auth context. */
module Login {
  import opened Wrappers
  import opened AuthContext

  datatype LoginForm = LoginForm(email: string, password: string)

  /** The `name` attributes of the form's inputs. */
  datatype Field = Email | Password

  const EmptyForm := LoginForm("", "")

  function ValueOf(form: LoginForm, field: Field): string
  {
    match field
    case Email => form.email
    case Password => form.password
  }

  /** `{ ...formData, [e.target.name]: e.target.value }`: the named field takes
      the value and the other keeps its own. */
  function WithValue(form: LoginForm, field: Field, value: string): (r: LoginForm)
    ensures ValueOf(r, field) == value
    ensures forall f :: f != field ==> ValueOf(r, f) == ValueOf(form, f)
  {
    match field
    case Email => form.(email := value)
    case Password => form.(password := value)
  }

  class LoginPage {
    var formData: LoginForm
    var error: string
    var loading: bool
    var navigatedTo: Option<string>

    constructor ()
      ensures formData == EmptyForm && error == "" && !loading && navigatedTo == None
    {
      formData, error, loading, navigatedTo := EmptyForm, "", false, None;
    }

    method HandleChange(field: Field, value: string)
      modifies this`formData
      ensures formData == WithValue(old(formData), field, value)
    {
      formData := WithValue(formData, field, value);
    }

    /** handleSubmit: clears the error and sends the form; success goes to
        "/profile", failure shows the server's message (else "Login
        failed"); loading is false once the call settles. */
    method HandleSubmit(session: Session, response: Outcome<LoginResponse>, check: Outcome<Option<User>>)
      modifies this`error, this`loading, this`navigatedTo, session
      ensures !loading
      ensures session.Current() == LoginStep(old(session.Current()), response, check).next
      ensures response.Success? ==> navigatedTo == Some("/profile") && error == ""
      ensures response.Failure? ==>
        navigatedTo == old(navigatedTo) && error == MessageOr(response.message, "Login failed")
    {
      error := "";
      loading := true;
      var result := session.Login(response, check);
      if result.Resolved? {
        navigatedTo := Some("/profile");
      } else {
        error := MessageOr(result.message, "Login failed");
      }
      loading := false;
    }
  }

  /** A failed login always leaves an error to show and the session as it was. */
  lemma FailedLoginShowsError(s: State, response: Outcome<LoginResponse>, check: Outcome<Option<User>>)
    requires response.Failure?
    ensures LoginStep(s, response, check).next == s
    ensures MessageOr(LoginStep(s, response, check).result.message, "Login failed") != ""
  {
  }
}
