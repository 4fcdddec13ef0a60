/** The route guard: a chain of early returns on `loading`, `user` and
    `allowedRoles`. */
module ProtectedRoute {
  import opened Wrappers
  import opened AuthContext

  /** What the guard renders: the spinner, a `<Navigate replace>` to a path,
      or the protected children. */
  datatype View = Spinner | Redirect(to: string) | Children

  /** `allowedRoles && allowedRoles.length > 0`: a non-empty list was given. */
  predicate RolesRequired(allowedRoles: Option<seq<string>>)
  {
    allowedRoles.Some? && |allowedRoles.value| > 0
  }

  /** `user.role && allowedRoles.includes(user.role)` */
  predicate HasAllowedRole(u: User, roles: seq<string>)
  {
    Truthy(u.role) && u.role.value in roles
  }

  function Decide(loading: bool, user: Option<User>, allowedRoles: Option<seq<string>>): View
  {
    if loading then Spinner
    else if user.None? then Redirect("/login")
    else if RolesRequired(allowedRoles) && !HasAllowedRole(user.value, allowedRoles.value) then Redirect("/")
    else Children
  }

  /** The children are shown exactly to a settled, logged-in user who either
      faces no role requirement or holds one of the allowed roles. */
  lemma ChildrenIff(loading: bool, user: Option<User>, allowedRoles: Option<seq<string>>)
    ensures Decide(loading, user, allowedRoles) == Children <==>
      !loading && user.Some?
      && (!RolesRequired(allowedRoles) || HasAllowedRole(user.value, allowedRoles.value))
  {
  }

  /** The loading check comes first; then a missing user goes to the login
      page; then a missing or unlisted role goes to the home page. */
  lemma DecisionOrder(loading: bool, user: Option<User>, allowedRoles: Option<seq<string>>)
    ensures loading ==> Decide(loading, user, allowedRoles) == Spinner
    ensures !loading && user.None? ==> Decide(loading, user, allowedRoles) == Redirect("/login")
    ensures !loading && user.Some? && RolesRequired(allowedRoles) && user.value.role.None? ==>
      Decide(loading, user, allowedRoles) == Redirect("/")
    ensures (!loading && user.Some? && RolesRequired(allowedRoles)
             && Truthy(user.value.role) && user.value.role.value !in allowedRoles.value) ==>
      Decide(loading, user, allowedRoles) == Redirect("/")
    ensures Decide(loading, user, allowedRoles) in {Spinner, Redirect("/login"), Redirect("/"), Children}
  {
  }

  /** After logout no guarded route shows its children: once loading has
      settled, every guarded route sends the visitor to the login page. */
  lemma NoChildrenAfterLogout(s: State, response: Outcome<()>, allowedRoles: Option<seq<string>>)
    ensures var after := LogoutStep(s, response);
      Decide(after.loading, after.user, allowedRoles)
      == if s.loading then Spinner else Redirect("/login")
  {
  }
}
