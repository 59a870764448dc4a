/**
 * The admin route gate: while the session is loading nothing is rendered;
 * then an absent user is sent to the login page, a non-admin to the home
 * page, and only an admin reaches the protected outlet.
 */
module ProtectedRoute {
  import opened Records

  datatype Outcome = RenderNothing | Redirect(to: string, replace: bool) | RenderOutlet

  /** The user is present and their role is exactly `"admin"`. */
  predicate IsAdmin(user: Option<User>)
  {
    user.Some? && user.value.role == Some("admin")
  }

  /** The gate's decision over the auth context's `(loading, user)`. */
  function Gate(loading: bool, user: Option<User>): (o: Outcome)
    ensures o == RenderNothing <==> loading
    ensures o == Redirect("/login", true) <==> !loading && user.None?
    ensures o == Redirect("/", true) <==> !loading && user.Some? && !IsAdmin(user)
    ensures o == RenderOutlet <==> !loading && IsAdmin(user)
    ensures o in {RenderNothing, Redirect("/login", true), Redirect("/", true), RenderOutlet}
  {
    if loading then RenderNothing
    else if user.None? then Redirect("/login", true)
    else if user.value.role != Some("admin") then Redirect("/", true)
    else RenderOutlet
  }

  /** The decision depends on the user only through its presence and its role. */
  lemma GateSeesOnlyRole(loading: bool, u: User, v: User)
    requires u.role == v.role
    ensures Gate(loading, Some(u)) == Gate(loading, Some(v))
  {
  }
}
