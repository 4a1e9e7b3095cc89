/**
 * The access gate in front of the two dashboards
 * (src/components/auth/ProtectedRoute.tsx) and the two role policies the
 * routing table gives it (src/App.tsx).
 */
module AccessGate {
  import opened Common
  import opened AuthContext

  /** What the gate renders: the loading placeholder, the protected page, or
      a navigation elsewhere. */
  datatype Decision = Pending | Allow | Redirect(path: string)

  /** The policy of the staff dashboard route. */
  const StaffPolicy: seq<Role> := [Doctor, Nurse]
  /** The policy of the patient dashboard route. */
  const PatientPolicy: seq<Role> := [Patient]

  /** `allowedRoles.includes(userData.role)`: a missing role is never listed. */
  predicate Listed(allowedRoles: seq<Role>, role: Option<Role>)
  {
    role.Some? && role.value in allowedRoles
  }

  /** Where a user whose role the policy refuses is sent. */
  function FallbackFor(role: Option<Role>): (path: string)
    ensures role == Some(Patient) ==> path == PatientDashboardPath
    ensures IsStaff(role) ==> path == StaffDashboardPath
    ensures role != Some(Patient) && !IsStaff(role) ==> path == HomePath
  {
    if role == Some(Patient) then PatientDashboardPath
    else if role == Some(Doctor) || role == Some(Nurse) then StaffDashboardPath
    else HomePath
  }

  /** The gate's decision. `allowedRoles` is the optional prop (an empty list
      is present, as in JavaScript, where an empty array is truthy). */
  function Decide(loading: bool, user: Option<User>, userData: Option<UserData>, allowedRoles: Option<seq<Role>>): (d: Decision)
    // while the session is resolving nothing is decided
    ensures d == Pending <==> loading
    // nobody signed in: always the patient login page, whatever the policy
    ensures !loading && user.None? ==> d == Redirect(PatientLoginPath)
    // a signed-in user passes unless a policy and user data are both present
    // and the role is not listed
    ensures d == Allow <==>
              !loading && user.Some? &&
              (allowedRoles.None? || userData.None? || Listed(allowedRoles.value, userData.value.role))
    // a signed-in user is only ever redirected by role, through the fallback table
    ensures d.Redirect? && user.Some? ==>
              allowedRoles.Some? && userData.Some? && !Listed(allowedRoles.value, userData.value.role) &&
              d.path == FallbackFor(userData.value.role)
  {
    if loading then Pending
    else if user.None? then Redirect(PatientLoginPath)
    else if allowedRoles.Some? && userData.Some? && !Listed(allowedRoles.value, userData.value.role) then
      Redirect(FallbackFor(userData.value.role))
    else Allow
  }

  /** Neither dashboard sends a user back to itself: the staff policy never
      redirects to the staff dashboard and the patient policy never to the
      patient dashboard. For the three declared roles the target is the
      other dashboard. */
  lemma NoSelfRedirect(loading: bool, user: Option<User>, userData: Option<UserData>)
    ensures Decide(loading, user, userData, Some(StaffPolicy)) != Redirect(StaffDashboardPath)
    ensures Decide(loading, user, userData, Some(PatientPolicy)) != Redirect(PatientDashboardPath)
    ensures user.Some? && userData.Some? && userData.value.role == Some(Patient) ==>
              Decide(false, user, userData, Some(StaffPolicy)) == Redirect(PatientDashboardPath)
    ensures user.Some? && userData.Some? && IsStaff(userData.value.role) ==>
              Decide(false, user, userData, Some(PatientPolicy)) == Redirect(StaffDashboardPath)
  {
  }
}
