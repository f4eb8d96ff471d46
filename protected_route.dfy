/** The route guard (src/components/ProtectedRoute.tsx) and the two guarded
    sections of the routing table in src/App.tsx. */
module ProtectedRoute {
  import opened Common

  /** `UserRole` without its `null`, which is `None` here. */
  datatype Role = SuperAdminRole | HospitalAdminRole

  function RoleName(r: Role): string {
    match r
    case SuperAdminRole => "super_admin"
    case HospitalAdminRole => "hospital_admin"
  }

  /** What the guard renders. Every redirect replaces the history entry;
      the one to the login page also carries the location it came from. */
  datatype View =
    | Spinner
    | Redirect(to: string, from: Option<string>)
    | Children

  const StaffRoles: seq<string> := ["admin", "manager", "receptionist"]

  /** `ProtectedRoute`: `user` is whether someone is signed in, `role` the
      role loaded for them, `allowedRoles` the prop (any array, the empty
      one included, is truthy). */
  function Guard(loading: bool, user: bool, role: Option<Role>, allowedRoles: Option<seq<string>>, path: string): View {
    if loading then Spinner
    else if !user then Redirect("/login", Some(path))
    else if allowedRoles.Some? && role.Some? && RoleName(role.value) !in allowedRoles.value then
      if role.value == SuperAdminRole then Redirect("/admin", None)
      else if RoleName(role.value) in StaffRoles then Redirect("/hms/dashboard", None)
      else Redirect("/unauthorized", None)
    else Children
  }

  /** While loading only the spinner shows; once loaded with nobody signed
      in every path goes to /login, remembering where it came from; a
      signed-in user sees the page unless a role list is given and the
      loaded role is not in it, in which case a super admin goes to /admin
      and a hospital admin to /unauthorized. */
  lemma GuardSpec(loading: bool, user: bool, role: Option<Role>, allowedRoles: Option<seq<string>>, path: string)
    ensures loading ==> Guard(loading, user, role, allowedRoles, path) == Spinner
    ensures !loading && !user ==> Guard(loading, user, role, allowedRoles, path) == Redirect("/login", Some(path))
    ensures Guard(loading, user, role, allowedRoles, path) == Children
        <==> !loading && user && (allowedRoles.None? || role.None? || RoleName(role.value) in allowedRoles.value)
    ensures Guard(loading, user, role, allowedRoles, path) == Redirect("/admin", None)
        <==> !loading && user && role == Some(SuperAdminRole) && allowedRoles.Some? && "super_admin" !in allowedRoles.value
    ensures Guard(loading, user, role, allowedRoles, path) == Redirect("/unauthorized", None)
        <==> !loading && user && role == Some(HospitalAdminRole) && allowedRoles.Some? && "hospital_admin" !in allowedRoles.value
  {
    StaffBranchUnreachable(role);
  }

  /** The redirect of hospital staff to their dashboard cannot happen: no
      `UserRole` is a staff role. */
  lemma StaffBranchUnreachable(role: Option<Role>)
    ensures role.Some? ==> RoleName(role.value) !in StaffRoles
    ensures forall loading, user, allowed, path :: Guard(loading, user, role, allowed, path) != Redirect("/hms/dashboard", None)
  {
  }

  // ---------------------------------------------------------------------------
  // The routing table

  /** The `/super-admin` and `/hms` sections as written: App passes
      `requireRole`, a prop the guard does not read, so `allowedRoles` is
      undefined for both. */
  function SectionAsWritten(loading: bool, user: bool, role: Option<Role>, path: string): View {
    Guard(loading, user, role, None, path)
  }

  /** As written, every signed-in user is shown both sections: a hospital
      admin the super-admin pages, and a super admin the hospital pages. */
  lemma SectionsUnchecked(path: string)
    ensures forall role :: SectionAsWritten(false, true, role, path) == Children
  {
  }

  /** The sections with the role passed as `allowedRoles`. */
  function SuperAdminSection(loading: bool, user: bool, role: Option<Role>, path: string): View {
    Guard(loading, user, role, Some(["super_admin"]), path)
  }

  function HmsSection(loading: bool, user: bool, role: Option<Role>, path: string): View {
    Guard(loading, user, role, Some(["hospital_admin"]), path)
  }

  /** With the role passed as `allowedRoles`, a signed-in user with a loaded
      role sees a section exactly when it is that section's role; a hospital
      admin is sent away from the super-admin section to /unauthorized and a
      super admin from the hospital section to /admin. */
  lemma SectionsChecked(role: Role, path: string)
    ensures SuperAdminSection(false, true, Some(role), path) == Children <==> role == SuperAdminRole
    ensures HmsSection(false, true, Some(role), path) == Children <==> role == HospitalAdminRole
    ensures SuperAdminSection(false, true, Some(HospitalAdminRole), path) == Redirect("/unauthorized", None)
    ensures HmsSection(false, true, Some(SuperAdminRole), path) == Redirect("/admin", None)
  {
    assert "hospital_admin" != "super_admin";
    assert "hospital_admin" !in ["super_admin"];
    assert "super_admin" !in ["hospital_admin"];
  }
}
