/**
 * The staff login page (src/pages/StaffLoginPage.tsx): the form validators
 * and the two sign-in handlers.
 *
 * Both handlers are asynchronous: `Begin…` is the part up to the awaited
 * sign-in call and returns the call the page makes, `Finish…` is the
 * continuation once that call settles. The page never passes its selected
 * tab to the sign-in calls, so the expected role they receive is missing.
 */
module StaffLogin {
  import opened Common
  import opened Validation

  const EmailLoginFailedMessage: string := "Invalid email or password. Please try again."
  const GoogleLoginFailedMessage: string := "Could not sign in with Google. Please try again."

  /** A sign-in call the page makes to the session provider. */
  datatype LoginRequest =
    | EmailLogin(email: string, password: string, expectedRole: Option<Role>)
    | GoogleLogin(expectedRole: Option<Role>)

  /** The page's form check: the shared email pattern and a password of at
      least six (UTF-16) units; nothing is asked of the selected tab. */
  function IsFormValid(email: string, password: string): (ok: bool)
    ensures ok <==> MatchesEmailPattern(email) && JsLength(password) >= 6
    ensures ok ==> |password| >= 3
  {
    EmailValidIffPattern(email);
    IsEmailValid(email) && JsLength(password) >= 6
  }

  class LoginPage {
    var role: Role                  // the selected tab
    var email: string
    var password: string
    var error: Option<string>
    var isLoading: bool

    constructor ()
      ensures role == Doctor && email == "" && password == "" && error.None? && !isLoading
    {
      role := Doctor;
      email := "";
      password := "";
      error := None;
      isLoading := false;
    }

    /** The tab switch and the two inputs. */
    method Edit(tab: Role, newEmail: string, newPassword: string)
      requires tab == Doctor || tab == Nurse
      modifies this`role, this`email, this`password
      ensures role == tab && email == newEmail && password == newPassword
    {
      role, email, password := tab, newEmail, newPassword;
    }

    /** `handleEmailLogin` up to the awaited sign-in. An invalid form makes
        no call and changes nothing. The sign-in button is disabled while a
        sign-in is in progress. */
    method BeginEmailLogin() returns (request: Option<LoginRequest>)
      requires !isLoading
      modifies this`isLoading, this`error
      ensures !IsFormValid(email, password) ==> request.None? && !isLoading && error == old(error)
      ensures IsFormValid(email, password) ==>
                request == Some(EmailLogin(email, password, None)) && isLoading && error.None?
    {
      if !IsFormValid(email, password) {
        return None;
      }
      isLoading := true;
      error := None;
      request := Some(EmailLogin(email, password, None));
    }

    /** The continuation of `handleEmailLogin`: the staff dashboard on
        success, one fixed message whatever the failure. */
    method FinishEmailLogin(outcome: Attempt<()>) returns (navigateTo: Option<string>)
      requires isLoading
      modifies this`isLoading, this`error
      ensures !isLoading
      ensures outcome.Resolved? ==> navigateTo == Some(StaffDashboardPath) && error == old(error)
      ensures outcome.Rejected? ==> navigateTo.None? && error == Some(EmailLoginFailedMessage)
    {
      if outcome.Resolved? {
        navigateTo := Some(StaffDashboardPath);
      } else {
        navigateTo := None;
        error := Some(EmailLoginFailedMessage);
      }
      isLoading := false;
    }

    /** `handleGoogleLogin` up to the awaited sign-in; there is no form check.
        The Google button is disabled while a sign-in is in progress. */
    method BeginGoogleLogin() returns (request: LoginRequest)
      requires !isLoading
      modifies this`isLoading, this`error
      ensures request == GoogleLogin(None) && isLoading && error.None?
    {
      isLoading := true;
      error := None;
      request := GoogleLogin(None);
    }

    /** The continuation of `handleGoogleLogin`. */
    method FinishGoogleLogin(outcome: Attempt<()>) returns (navigateTo: Option<string>)
      requires isLoading
      modifies this`isLoading, this`error
      ensures !isLoading
      ensures outcome.Resolved? ==> navigateTo == Some(StaffDashboardPath) && error == old(error)
      ensures outcome.Rejected? ==> navigateTo.None? && error == Some(GoogleLoginFailedMessage)
    {
      if outcome.Resolved? {
        navigateTo := Some(StaffDashboardPath);
      } else {
        navigateTo := None;
        error := Some(GoogleLoginFailedMessage);
      }
      isLoading := false;
    }
  }
}
