/**
  The role gate `ProtectedRoute` (src/components/ProtectedRoute.tsx): a
  chain of early returns over `loading`, `authUser` and the optional
  `requiredRole`, choosing one of the views below.
*/
module Route {
  import opened Options
  import opened Auth

  datatype View =
    | LoadingView
    | FallbackView               // the `fallback` the caller supplied
    | AccessDeniedCard           // shown when no fallback was supplied
    | RestrictedView(adminOnlyMessage: bool)
    | ChildrenView

  /** Whether a user-role profile is asking for an admin-only area; it can
      hold only when the roles differ, that is, when access is refused. */
  predicate IsUserTryingAdminAccess(requiredRole: Role, role: Role)
    ensures IsUserTryingAdminAccess(requiredRole, role) ==> requiredRole != role
  {
    requiredRole == AdminRole && role == UserRole
  }

  /** The view chosen; `hasFallback` says whether a (truthy) fallback was given. */
  function Decide(loading: bool, authUser: Option<AuthUser>, requiredRole: Option<Role>, hasFallback: bool): (v: View)
    ensures loading ==> v == LoadingView
    ensures !loading && authUser.None? ==> v == (if hasFallback then FallbackView else AccessDeniedCard)
    ensures v == ChildrenView <==>
              !loading && authUser.Some? &&
              (requiredRole.None? || requiredRole.value == authUser.value.profile.role)
    ensures v.RestrictedView? <==>
              !loading && authUser.Some? && requiredRole.Some? &&
              requiredRole.value != authUser.value.profile.role
    ensures v.RestrictedView? ==>
              (v.adminOnlyMessage <==> requiredRole.value == AdminRole && authUser.value.profile.role == UserRole)
  {
    if loading then LoadingView
    else if authUser.None? then (if hasFallback then FallbackView else AccessDeniedCard)
    else if requiredRole.Some? && authUser.value.profile.role != requiredRole.value then
      RestrictedView(IsUserTryingAdminAccess(requiredRole.value, authUser.value.profile.role))
    else ChildrenView
  }

  /** The gate as seen through the session state holder. */
  function Gate(s: AuthState, requiredRole: Option<Role>, hasFallback: bool): View {
    Decide(s.loading, AuthUserOf(s), requiredRole, hasFallback)
  }

  /** An identity without a profile is never let through. */
  lemma IdentityWithoutProfileIsNotAdmitted(s: AuthState, requiredRole: Option<Role>, hasFallback: bool)
    requires s.profile.None?
    ensures Gate(s, requiredRole, hasFallback) != ChildrenView
    ensures !s.loading ==> Gate(s, requiredRole, hasFallback) in {FallbackView, AccessDeniedCard}
  {
  }

  /** After sign-out, once loading is over, only the fallback or the
      access-denied card can be shown. */
  lemma SignedOutSeesFallback(s: AuthState, requiredRole: Option<Role>, hasFallback: bool)
    requires !s.loading
    ensures Gate(SignOutStep(s), requiredRole, hasFallback) ==
            (if hasFallback then FallbackView else AccessDeniedCard)
  {
  }

  /** A user-role profile never reaches an admin-only area, and gets the
      administrator message instead. */
  lemma UserNeverReachesAdminArea(loading: bool, authUser: Option<AuthUser>, hasFallback: bool)
    requires authUser.Some? && authUser.value.profile.role == UserRole
    ensures Decide(loading, authUser, Some(AdminRole), hasFallback) != ChildrenView
    ensures !loading ==> Decide(loading, authUser, Some(AdminRole), hasFallback) == RestrictedView(true)
  {
  }
}
