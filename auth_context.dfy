/** The authentication context: the stored token, the current user and the
    `loading` flag, changed by checkSession, login, register, logout,
    updateProfile and updatePassword. Every server call is an `Outcome`
    parameter; `localStorage` is the `token` field. */
module AuthContext {
  import opened Wrappers

  /** The user object the backend returns. */
  datatype User = User(
    id: string,
    username: string,
    email: string,
    dateOfBirth: string,
    gender: string,
    phoneNumber: string,
    role: Option<string>)

  /** The body of a successful login: the token and the user are both optional. */
  datatype LoginResponse = LoginResponse(token: Option<string>, user: Option<User>)

  /** How an auth call settles for its caller: it resolves, or it rethrows the
      request's error, whose server message the pages display. */
  datatype CallResult = Resolved | Rejected(message: Option<string>)

  /** The context's state: `localStorage.authToken`, `user` and `loading`. */
  datatype State = State(token: Option<string>, user: Option<User>, loading: bool)

  /** A transition's new state and what the awaiting caller sees. */
  datatype Reply = Reply(next: State, result: CallResult)

  /** Mount: no user yet, and loading until the first checkSession settles. */
  function Initial(stored: Option<string>): State
  {
    State(stored, None, true)
  }

  /** checkSession: asks `GET /user` only when a truthy token is stored.
      The response's user is adopted; a failed request drops the token. */
  function CheckSessionStep(s: State, response: Outcome<Option<User>>): State
  {
    if Truthy(s.token) then
      match response
      case Success(u) => State(s.token, u, false)
      case Failure(_) => State(None, None, false)
    else
      State(s.token, None, false)
  }

  /** login: a failed request rethrows and changes nothing. Otherwise a truthy
      token is stored, and the returned user is adopted or, without one,
      checkSession runs on the (possibly new) token. */
  function LoginStep(s: State, response: Outcome<LoginResponse>, check: Outcome<Option<User>>): Reply
  {
    match response
    case Failure(m) => Reply(s, Rejected(m))
    case Success(data) =>
      var stored := if Truthy(data.token) then s.(token := data.token) else s;
      if data.user.Some? then Reply(stored.(user := data.user), Resolved)
      else Reply(CheckSessionStep(stored, check), Resolved)
  }

  /** register: a failed request rethrows and changes nothing; otherwise the
      session is always reconciled through checkSession. */
  function RegisterStep(s: State, response: Outcome<()>, check: Outcome<Option<User>>): Reply
  {
    match response
    case Failure(m) => Reply(s, Rejected(m))
    case Success(_) => Reply(CheckSessionStep(s, check), Resolved)
  }

  /** logout: the server's answer is caught and ignored; the token and the
      user are cleared. */
  function LogoutStep(s: State, response: Outcome<()>): State
  {
    s.(token := None, user := None)
  }

  /** updateProfile: adopts the response's user (which may be absent). */
  function UpdateProfileStep(s: State, response: Outcome<Option<User>>): Reply
  {
    match response
    case Failure(m) => Reply(s, Rejected(m))
    case Success(u) => Reply(s.(user := u), Resolved)
  }

  /** updatePassword: only reports how the request settled. */
  function UpdatePasswordStep(s: State, response: Outcome<()>): Reply
  {
    match response
    case Failure(m) => Reply(s, Rejected(m))
    case Success(_) => Reply(s, Resolved)
  }

  /** checkSession always ends with loading false. Without a truthy token it
      clears the user and keeps the token, whatever a request would have
      answered: no request is made. */
  lemma CheckSessionSettles(s: State, response: Outcome<Option<User>>, other: Outcome<Option<User>>)
    ensures !CheckSessionStep(s, response).loading
    ensures !Truthy(s.token) ==>
      CheckSessionStep(s, response) == CheckSessionStep(s, other) == State(s.token, None, false)
  {
  }

  /** With a token, success adopts the response's user and keeps the token;
      failure removes the token and the user. */
  lemma CheckSessionWithToken(s: State, response: Outcome<Option<User>>)
    requires Truthy(s.token)
    ensures response.Success? ==>
      CheckSessionStep(s, response).user == response.response
      && CheckSessionStep(s, response).token == s.token
    ensures response.Failure? ==>
      CheckSessionStep(s, response).user == None && CheckSessionStep(s, response).token == None
  {
  }

  /** login stores a token only from a response that carries a truthy one,
      adopts a returned user without touching `loading`, and otherwise
      settles through checkSession. */
  lemma LoginStoresOnlyReturnedToken(s: State, response: Outcome<LoginResponse>, check: Outcome<Option<User>>)
    ensures var r := LoginStep(s, response, check);
      r.next.token == s.token
      || (response.Success? && Truthy(response.response.token) && r.next.token == response.response.token)
      || r.next.token == None
    ensures response.Success? && response.response.user.Some? ==>
      LoginStep(s, response, check).next == State(
        if Truthy(response.response.token) then response.response.token else s.token,
        response.response.user, s.loading)
    ensures response.Success? && response.response.user.None? ==>
      LoginStep(s, response, check).next == CheckSessionStep(
        if Truthy(response.response.token) then s.(token := response.response.token) else s, check)
      && !LoginStep(s, response, check).next.loading
    ensures response.Failure? ==> LoginStep(s, response, check) == Reply(s, Rejected(response.message))
  {
  }

  /** register never stores a token of its own: afterwards the token is the
      old one, or gone because checkSession's request failed. */
  lemma RegisterKeepsToken(s: State, response: Outcome<()>, check: Outcome<Option<User>>)
    ensures var r := RegisterStep(s, response, check);
      r.next.token == s.token || (response.Success? && check.Failure? && r.next.token == None)
    ensures response.Success? ==> !RegisterStep(s, response, check).next.loading
  {
  }

  /** logout always leaves no token and no user, whether or not the server call failed. */
  lemma LogoutAlwaysClears(s: State, response: Outcome<()>)
    ensures LogoutStep(s, response).token == None && LogoutStep(s, response).user == None
    ensures LogoutStep(s, response).loading == s.loading
  {
  }

  /** updatePassword never changes the session; updateProfile changes only the user. */
  lemma UpdatesTouchOnlyUser(s: State, p: Outcome<Option<User>>, q: Outcome<()>)
    ensures UpdatePasswordStep(s, q).next == s
    ensures UpdateProfileStep(s, p).next.token == s.token
    ensures UpdateProfileStep(s, p).next.loading == s.loading
    ensures p.Success? ==> UpdateProfileStep(s, p).next.user == p.response
  {
  }

  /** The provider's state, updated in place by its handlers. */
  class Session {
    var token: Option<string>
    var user: Option<User>
    var loading: bool

    function Current(): State
      reads this
    {
      State(token, user, loading)
    }

    constructor (stored: Option<string>)
      ensures Current() == Initial(stored)
      ensures loading && user == None
    {
      token := stored;
      user := None;
      loading := true;
    }

    /** Returns whether `GET /user` is sent. */
    method CheckSession(response: Outcome<Option<User>>) returns (requested: bool)
      modifies this
      ensures requested == Truthy(old(token))
      ensures Current() == CheckSessionStep(old(Current()), response)
    {
      requested := Truthy(token);
      if requested {
        match response {
          case Success(u) =>
            user := u;
          case Failure(_) =>
            token := None;
            user := None;
        }
        loading := false;
      } else {
        user := None;
        loading := false;
      }
    }

    method Login(response: Outcome<LoginResponse>, check: Outcome<Option<User>>) returns (result: CallResult)
      modifies this
      ensures Reply(Current(), result) == LoginStep(old(Current()), response, check)
    {
      match response
      case Failure(m) =>
        return Rejected(m);
      case Success(data) =>
        if Truthy(data.token) {
          token := data.token;
        }
        if data.user.Some? {
          user := data.user;
        } else {
          var _ := CheckSession(check);
        }
        return Resolved;
    }

    method Register(response: Outcome<()>, check: Outcome<Option<User>>) returns (result: CallResult)
      modifies this
      ensures Reply(Current(), result) == RegisterStep(old(Current()), response, check)
    {
      match response
      case Failure(m) =>
        return Rejected(m);
      case Success(_) =>
        var _ := CheckSession(check);
        return Resolved;
    }

    method Logout(response: Outcome<()>)
      modifies this
      ensures Current() == LogoutStep(old(Current()), response)
    {
      token := None;
      user := None;
    }

    method UpdateProfile(response: Outcome<Option<User>>) returns (result: CallResult)
      modifies this
      ensures Reply(Current(), result) == UpdateProfileStep(old(Current()), response)
    {
      match response
      case Failure(m) =>
        return Rejected(m);
      case Success(u) =>
        user := u;
        return Resolved;
    }

    method UpdatePassword(response: Outcome<()>) returns (result: CallResult)
      ensures Reply(Current(), result) == UpdatePasswordStep(Current(), response)
    {
      match response
      case Failure(m) =>
        return Rejected(m);
      case Success(_) =>
        return Resolved;
    }
  }
}
