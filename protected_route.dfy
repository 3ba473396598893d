/** The route guard of src/components/ProtectedRoute.tsx: which of four
    screens a page shows, from the provider's `loading`, `user`, `userProfile`
    and its `hasRole`. */
module ProtectedRoute {
  import opened Common
  import opened AuthContext

  /** The four outcomes of the guard. `InsufficientPermissions` carries the two
      role names the message shows. */
  datatype Screen =
    | Spinner
    | AccessDenied
    | InsufficientPermissions(required: string, current: string)
    | Children

  /** The labels the guard shows for the roles it knows. */
  const RouteRoleLabels: map<string, string> :=
    map["admin" := "Administrator", "sales_employee" := "Sales Employee", "cashier" := "Cashier"]

  /** `getRoleDisplayName`: a fixed label for the three known roles, any other text unchanged. */
  function RoleDisplayName(role: string): (text: string)
    ensures text == if role in RouteRoleLabels then RouteRoleLabels[role] else role
  {
    match role
    case "admin" => "Administrator"
    case "sales_employee" => "Sales Employee"
    case "cashier" => "Cashier"
    case _ => role
  }

  /** `userProfile?.role || 'Unknown'`. */
  function CurrentRoleText(profile: Option<Profile>): (text: string)
    ensures text != ""
    ensures profile.Some? && profile.value.role != "" ==> text == profile.value.role
  {
    if profile.Some? && profile.value.role != "" then profile.value.role else "Unknown"
  }

  /** The guard: spinner while loading, access denied without a user, then the
      role check when a (non-empty) required role is given. */
  function Guard(loading: bool, signedIn: bool, profile: Option<Profile>, requiredRole: Option<string>): (s: Screen)
    ensures loading ==> s == Spinner
    ensures !loading && !signedIn ==> s == AccessDenied
    ensures !loading && signedIn && (requiredRole.None? || requiredRole.value == "") ==> s == Children
    ensures s == Children <==>
      !loading && signedIn && (requiredRole.None? || requiredRole.value == "" || HasRole(profile, requiredRole.value))
    ensures !loading && signedIn && requiredRole.Some? && requiredRole.value != "" && !HasRole(profile, requiredRole.value) ==>
      s == InsufficientPermissions(RoleDisplayName(requiredRole.value), RoleDisplayName(CurrentRoleText(profile)))
  {
    if loading then Spinner
    else if !signedIn then AccessDenied
    else if requiredRole.Some? && requiredRole.value != "" && !HasRole(profile, requiredRole.value) then
      InsufficientPermissions(RoleDisplayName(requiredRole.value), RoleDisplayName(CurrentRoleText(profile)))
    else Children
  }

  /** Without a signed-in user the profile and the required role are never consulted. */
  lemma NoUserIgnoresRole(p: Option<Profile>, q: Option<Profile>, r: Option<string>, t: Option<string>)
    ensures Guard(false, false, p, r) == Guard(false, false, q, t) == AccessDenied
  {
  }

  /** The guard asks for 'sales_employee' or 'cashier', roles `hasRole` does not
      know: such a page admits only admin profiles. */
  lemma StaffRoutesAdmitOnlyAdmins(profile: Option<Profile>, required: string)
    requires required == "sales_employee" || required == "cashier"
    ensures Guard(false, true, profile, Some(required)) == Children <==> profile.Some? && profile.value.role == "admin"
  {
  }

  /** A profile carrying the 'cashier' role itself is turned away from the cashier page. */
  lemma CashierDeniedCashierPage(p: Profile)
    requires p.role == "cashier"
    ensures Guard(false, true, Some(p), Some("cashier")) == InsufficientPermissions("Cashier", "Cashier")
  {
  }
}
