/**
 * Shared vocabulary of the portal model: optional values, the outcome of an
 * awaited promise (a value, or a thrown JavaScript value), and user roles.
 */
module Common {

  datatype Option<+T> = None | Some(value: T)

  /** What a rejected promise carries: an `Error` object with its message, or
      some other thrown value (which has no message). */
  datatype Thrown = ErrorWith(message: string) | NonErrorValue

  /** The settled state of an awaited promise. Calls into services that are not
      part of this model (the identity provider, the document store, the NFC
      platform) are given to the model as values of this type. */
  datatype Attempt<+T> = Resolved(value: T) | Rejected(reason: Thrown)

  /** `error instanceof Error ? error.message : fallback`, the pattern the
      catch blocks of the portal use to turn a thrown value into text. */
  function MessageOr(t: Thrown, fallback: string): (m: string)
    ensures t.ErrorWith? ==> m == t.message
    ensures t.NonErrorValue? ==> m == fallback
  {
    match t
    case ErrorWith(msg) => msg
    case NonErrorValue => fallback
  }

  /** A role is the string stored in a user document. The declared type allows
      only the three below, but a stored document can hold any string, and a
      role field can be missing altogether (`undefined`), which the model
      writes as `None` wherever a role is optional. */
  type Role = string

  const Doctor: Role := "doctor"
  const Nurse: Role := "nurse"
  const Patient: Role := "patient"

  /** Doctor and nurse form the staff group. */
  predicate IsStaff(r: Option<Role>)
  {
    r == Some(Doctor) || r == Some(Nurse)
  }

  // Paths of the routing table (src/App.tsx) that the modelled code navigates to.
  const HomePath: string := "/"
  const PatientLoginPath: string := "/login/patient"
  const PatientDashboardPath: string := "/dashboard/patient"
  const StaffDashboardPath: string := "/dashboard/staff"
}
