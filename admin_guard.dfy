/** The server's administrator check (`AdminGuard`). */
module AdminGuard {
  import opened Wrappers

  /** The authenticated user the request carries, as the token decoded it. */
  datatype RequestUser = RequestUser(email: string, role: string)

  /** `canActivate`: no user is refused, a role other than `'admin'` is refused, an administrator passes. */
  function CanActivate(user: Option<RequestUser>): (granted: bool)
    ensures user.None? ==> !granted
    ensures user.Some? && user.value.role != "admin" ==> !granted
    ensures user.Some? && user.value.role == "admin" ==> granted
  {
    if user.None? then false
    else if user.value.role != "admin" then false
    else true
  }

  /** The decision depends on the role alone: two users with the same role are treated alike. */
  lemma OnlyRoleMatters(a: RequestUser, b: RequestUser)
    requires a.role == b.role
    ensures CanActivate(Some(a)) == CanActivate(Some(b))
  {
  }
}
