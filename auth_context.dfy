/**
 * The session provider of the portal (src/context/AuthContext.tsx): the React
 * state `user`, `userData` and `loading`, the auth-state callback, the three
 * sign-in/registration operations with their role check, and sign-out.
 *
 * The identity provider and the document store are not part of this model.
 * The provider's current user and the two document collections the code
 * touches (`users`, `patients`) are fields of the class, and the outcome of
 * every call into those services is a parameter (`Attempt`).
 */
module AuthContext {
  import opened Common

  /** The identity provider's user object (the fields the code reads). */
  datatype User = User(uid: string, email: Option<string>, displayName: Option<string>)

  /** The shape of `userData` and of a document in the `users` collection
      (the document's `createdAt` server timestamp is not modelled). */
  datatype UserData = UserData(uid: string, email: Option<string>, displayName: Option<string>, role: Option<Role>)

  /** A document in the `patients` collection (`createdAt` and the empty
      `history` list are not modelled). */
  datatype PatientDoc = PatientDoc(id: string, name: string, email: Option<string>, nfcProfileUrl: string)

  const NoProfileMessage: string := "No user profile found"
  const UnauthorizedMessage: string := "Unauthorized login attempt."
  const UnauthorizedGoogleMessage: string := "Unauthorized Google login attempt."

  /** The role check of both sign-in operations: the stored role must equal
      the expected one, except that doctor and nurse accept each other when
      the expected role is one of them. The contract spells out what that
      means: an exact match for every expected role outside the staff group
      (patient and a missing role included), group membership for a staff
      role. */
  function RoleAccepted(stored: Option<Role>, expected: Option<Role>): (ok: bool)
    ensures expected == Some(Patient) ==> (ok <==> stored == Some(Patient))
    ensures expected.None? ==> (ok <==> stored.None?)
    ensures IsStaff(expected) ==> (ok <==> IsStaff(stored))
    ensures !IsStaff(expected) ==> (ok <==> stored == expected)
  {
    stored == expected || (IsStaff(expected) && IsStaff(stored))
  }

  /** The address written to a patient's NFC card. */
  function ProfileUrl(origin: string, uid: string): string
  {
    origin + PatientLoginPath + "?id=" + uid
  }

  /** The role check is an equivalence: its classes are the staff group and
      one class for every other role value. */
  lemma RoleAcceptedIsEquivalence(a: Option<Role>, b: Option<Role>, c: Option<Role>)
    ensures RoleAccepted(a, a)
    ensures RoleAccepted(a, b) ==> RoleAccepted(b, a)
    ensures RoleAccepted(a, b) && RoleAccepted(b, c) ==> RoleAccepted(a, c)
  {
  }

  class AuthProvider {
    // the provider's React state
    var user: Option<User>
    var userData: Option<UserData>
    var loading: bool

    // state of the services the provider talks to
    var currentUser: Option<User>             // the identity provider's signed-in user
    var users: map<string, UserData>         // the `users` collection, by uid
    var patients: map<string, PatientDoc>    // the `patients` collection, by uid
    const origin: string                     // `window.location.origin`

    // the uids this provider has registered as patients
    ghost var registered: set<string>

    /** Every patient this provider registered has a `users` document with
        role patient and a `patients` document carrying the profile address
        of its uid. Documents the provider found in the store when it
        mounted are not constrained. */
    ghost predicate Valid()
      reads this
    {
      forall uid :: uid in registered ==>
        && uid in users && users[uid].uid == uid && users[uid].role == Some(Patient)
        && uid in patients && patients[uid].id == uid && patients[uid].nfcProfileUrl == ProfileUrl(origin, uid)
    }

    /** The provider mounts with no user, no user data and `loading` true. */
    constructor (origin: string, signedIn: Option<User>, users: map<string, UserData>, patients: map<string, PatientDoc>)
      ensures Valid() && registered == {}
      ensures user.None? && userData.None? && loading
      ensures this.origin == origin && currentUser == signedIn
      ensures this.users == users && this.patients == patients
    {
      this.origin := origin;
      user := None;
      userData := None;
      loading := true;
      currentUser := signedIn;
      this.users := users;
      this.patients := patients;
      registered := {};
    }

    /** One notification of the auth-state subscription, taken as one step:
        `u` is the notified user and `read` the outcome of reading its
        `users` document. */
    method OnAuthStateChanged(u: Option<User>, read: Attempt<()>)
      requires Valid()
      modifies this`user, this`userData, this`loading
      ensures Valid()
      ensures user == u && !loading
      ensures u.None? ==> userData.None?
      ensures u.Some? && read.Resolved? && u.value.uid in users ==>
                userData == Some(UserData(u.value.uid, u.value.email, u.value.displayName, users[u.value.uid].role))
      ensures u.Some? && (read.Rejected? || u.value.uid !in users) ==> userData == old(userData)
    {
      user := u;
      if u.Some? {
        var uid := u.value.uid;
        if read.Resolved? && uid in users {
          userData := Some(UserData(uid, u.value.email, u.value.displayName, users[uid].role));
        }
      } else {
        userData := None;
      }
      loading := false;
    }

    /** `loginWithEmail`. `signIn` is the verdict of the identity provider on
        the email and password, `read` the outcome of reading the profile,
        `signOut` the outcome of the forced sign-out on a role mismatch. */
    method LoginWithEmail(expectedRole: Option<Role>, signIn: Attempt<User>, read: Attempt<()>, signOut: Attempt<()>)
      returns (r: Attempt<()>)
      requires Valid()
      modifies this`currentUser
      ensures Valid()
      ensures signIn.Rejected? ==> r == Rejected(signIn.reason) && currentUser == old(currentUser)
      ensures signIn.Resolved? && read.Rejected? ==>
                r == Rejected(read.reason) && currentUser == Some(signIn.value)
      ensures signIn.Resolved? && read.Resolved? && signIn.value.uid !in users ==>
                r == Rejected(ErrorWith(NoProfileMessage)) && currentUser == Some(signIn.value)
      ensures signIn.Resolved? && read.Resolved? && signIn.value.uid in users ==>
                var accepted := RoleAccepted(users[signIn.value.uid].role, expectedRole);
                && (accepted ==> r == Resolved(()) && currentUser == Some(signIn.value))
                && (!accepted && signOut.Resolved? ==> r == Rejected(ErrorWith(UnauthorizedMessage)) && currentUser.None?)
                && (!accepted && signOut.Rejected? ==> r == Rejected(signOut.reason) && currentUser == Some(signIn.value))
      // a successful login leaves a signed-in user whose stored role passed the check
      ensures r.Resolved? ==>
                currentUser.Some? && currentUser.value.uid in users &&
                RoleAccepted(users[currentUser.value.uid].role, expectedRole)
    {
      if signIn.Rejected? {
        return Rejected(signIn.reason);
      }
      var u := signIn.value;
      currentUser := Some(u);
      if read.Rejected? {
        return Rejected(read.reason);
      }
      if u.uid !in users {
        return Rejected(ErrorWith(NoProfileMessage));
      }
      if !RoleAccepted(users[u.uid].role, expectedRole) {
        if signOut.Rejected? {
          return Rejected(signOut.reason);
        }
        currentUser := None;
        return Rejected(ErrorWith(UnauthorizedMessage));
      }
      r := Resolved(());
    }

    /** `loginWithGoogle`. A user without a profile gets one with the expected
        role (`write` is the outcome of storing it); a user with a profile goes
        through the same role check as `LoginWithEmail`. */
    method LoginWithGoogle(expectedRole: Option<Role>, popup: Attempt<User>, read: Attempt<()>, write: Attempt<()>, signOut: Attempt<()>)
      returns (r: Attempt<()>)
      requires Valid()
      modifies this`currentUser, this`users
      ensures Valid()
      ensures popup.Rejected? ==>
                r == Rejected(popup.reason) && currentUser == old(currentUser) && users == old(users)
      ensures popup.Resolved? && read.Rejected? ==>
                r == Rejected(read.reason) && currentUser == Some(popup.value) && users == old(users)
      ensures popup.Resolved? && read.Resolved? && popup.value.uid !in old(users) ==>
                var u := popup.value;
                && currentUser == Some(u)
                && (write.Resolved? ==>
                      r == Resolved(()) &&
                      users == old(users)[u.uid := UserData(u.uid, u.email, u.displayName, expectedRole)])
                && (write.Rejected? ==> r == Rejected(write.reason) && users == old(users))
      ensures popup.Resolved? && read.Resolved? && popup.value.uid in old(users) ==>
                var accepted := RoleAccepted(old(users)[popup.value.uid].role, expectedRole);
                && users == old(users)
                && (accepted ==> r == Resolved(()) && currentUser == Some(popup.value))
                && (!accepted && signOut.Resolved? ==> r == Rejected(ErrorWith(UnauthorizedGoogleMessage)) && currentUser.None?)
                && (!accepted && signOut.Rejected? ==> r == Rejected(signOut.reason) && currentUser == Some(popup.value))
      ensures r.Resolved? ==>
                currentUser.Some? && currentUser.value.uid in users &&
                RoleAccepted(users[currentUser.value.uid].role, expectedRole)
    {
      if popup.Rejected? {
        return Rejected(popup.reason);
      }
      var u := popup.value;
      currentUser := Some(u);
      if read.Rejected? {
        return Rejected(read.reason);
      }
      if u.uid !in users {
        if write.Rejected? {
          return Rejected(write.reason);
        }
        users := users[u.uid := UserData(u.uid, u.email, u.displayName, expectedRole)];
        return Resolved(());
      }
      if !RoleAccepted(users[u.uid].role, expectedRole) {
        if signOut.Rejected? {
          return Rejected(signOut.reason);
        }
        currentUser := None;
        return Rejected(ErrorWith(UnauthorizedGoogleMessage));
      }
      r := Resolved(());
    }

    /** `registerPatient`: create the account (`create`), set its display name
        (`update`), store the user document with role patient (`writeUser`)
        and the patient document with the card address (`writePatient`), and
        return the new uid. The first rejection ends the operation. */
    method RegisterPatient(name: string, create: Attempt<User>, update: Attempt<()>, writeUser: Attempt<()>, writePatient: Attempt<()>)
      returns (r: Attempt<string>)
      requires Valid()
      modifies this`currentUser, this`users, this`patients, this`registered
      ensures Valid()
      ensures registered == if r.Resolved? then old(registered) + {r.value} else old(registered)
      ensures create.Rejected? ==>
                r == Rejected(create.reason) && currentUser == old(currentUser) &&
                users == old(users) && patients == old(patients)
      ensures create.Resolved? && update.Rejected? ==>
                r == Rejected(update.reason) && currentUser == Some(create.value) &&
                users == old(users) && patients == old(patients)
      ensures create.Resolved? && update.Resolved? ==>
                currentUser == Some(create.value.(displayName := Some(name)))
      ensures create.Resolved? && update.Resolved? && writeUser.Rejected? ==>
                r == Rejected(writeUser.reason) && users == old(users) && patients == old(patients)
      ensures create.Resolved? && update.Resolved? && writeUser.Resolved? ==>
                var u := create.value;
                && users == old(users)[u.uid := UserData(u.uid, u.email, Some(name), Some(Patient))]
                && (writePatient.Rejected? ==> r == Rejected(writePatient.reason) && patients == old(patients))
                && (writePatient.Resolved? ==>
                      r == Resolved(u.uid) &&
                      patients == old(patients)[u.uid := PatientDoc(u.uid, name, u.email, ProfileUrl(origin, u.uid))])
      // the returned uid names a patient whose card address is its profile address
      ensures r.Resolved? ==>
                r.value in users && users[r.value].role == Some(Patient) &&
                r.value in patients && patients[r.value].nfcProfileUrl == ProfileUrl(origin, r.value)
    {
      if create.Rejected? {
        return Rejected(create.reason);
      }
      var u := create.value;
      currentUser := Some(u);
      if update.Rejected? {
        return Rejected(update.reason);
      }
      currentUser := Some(u.(displayName := Some(name)));
      if writeUser.Rejected? {
        return Rejected(writeUser.reason);
      }
      users := users[u.uid := UserData(u.uid, u.email, Some(name), Some(Patient))];
      if writePatient.Rejected? {
        return Rejected(writePatient.reason);
      }
      patients := patients[u.uid := PatientDoc(u.uid, name, u.email, ProfileUrl(origin, u.uid))];
      registered := registered + {u.uid};
      r := Resolved(u.uid);
    }

    /** `logout`: on a successful sign-out both `user` and `userData` are
        cleared; a failed sign-out is rethrown and changes nothing. */
    method Logout(signOut: Attempt<()>) returns (r: Attempt<()>)
      requires Valid()
      modifies this`currentUser, this`user, this`userData
      ensures Valid()
      ensures signOut.Resolved? ==> r == Resolved(()) && currentUser.None? && user.None? && userData.None?
      ensures signOut.Rejected? ==>
                r == Rejected(signOut.reason) &&
                currentUser == old(currentUser) && user == old(user) && userData == old(userData)
    {
      if signOut.Rejected? {
        return Rejected(signOut.reason);
      }
      currentUser := None;
      user := None;
      userData := None;
      r := Resolved(());
    }
  }
}
