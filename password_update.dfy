/** The forced password-update screen a login with a non-compliant
    password leads to: the current password arrives in the navigation
    state, and a success signs the user out and returns to the login form
    with a message. */
module PasswordUpdate {
  import opened Common
  import opened PasswordPolicy

  const REQUIREMENTS_MSG: string := "Please meet all password requirements"
  const MISMATCH_MSG: string := "New passwords do not match"
  const DONE_MSG: string := "Password updated successfully. Please log in with your new password."

  datatype Field = CurrentPassword | NewPassword | ConfirmPassword

  /** The guards after the e-mail check, first failure first. */
  function GuardError(reqs: Requirements, newPassword: string, confirm: string): (r: Option<string>)
    ensures r.None? <==> AllMet(reqs) && PasswordsMatch(newPassword, confirm)
    ensures !AllMet(reqs) ==> r == Some(REQUIREMENTS_MSG)
    ensures AllMet(reqs) && !PasswordsMatch(newPassword, confirm) ==> r == Some(MISMATCH_MSG)
  {
    if !AllMet(reqs) then Some(REQUIREMENTS_MSG)
    else if !PasswordsMatch(newPassword, confirm) then Some(MISMATCH_MSG)
    else None
  }

  /** The submit button is enabled: not loading, every flag set and the
      confirmation matching a non-empty new password. */
  predicate SubmitEnabled(loading: bool, reqs: Requirements, newPassword: string, confirm: string) {
    !loading && AllMet(reqs) && PasswordsMatch(newPassword, confirm)
  }

  /** The guard messages are reachable only while the button is disabled:
      an enabled button always passes both guards. */
  lemma EnabledButtonPassesGuards(loading: bool, reqs: Requirements, newPassword: string, confirm: string)
    ensures SubmitEnabled(loading, reqs, newPassword, confirm) <==>
      !loading && GuardError(reqs, newPassword, confirm).None?
  {
  }

  function UpdateCalls(email: string, currentPassword: string, newPassword: string): seq<AuthCall> {
    [Reauthenticate(email, currentPassword), UpdatePassword(newPassword), SignOut]
  }

  class UpdateForm {
    var currentPassword: string
    var newPassword: string
    var confirmPassword: string
    var loading: bool
    var error: string
    var requirements: Requirements
    var calls: seq<AuthCall>
    var route: Option<Route>

    ghost predicate FlagsCurrent()
      reads this
    {
      requirements == CheckRequirements(newPassword)
    }

    /** `navCurrentPassword` is the `currentPassword` of the navigation
        state, if any; a missing or empty one gives ''. */
    constructor (navCurrentPassword: Option<string>)
      ensures currentPassword == StringOr(navCurrentPassword, "")
      ensures newPassword == "" && confirmPassword == ""
      ensures !loading && error == "" && calls == [] && route.None?
      ensures requirements == Requirements(false, false, false, false, false)
      ensures FlagsCurrent()
    {
      currentPassword := StringOr(navCurrentPassword, "");
      newPassword, confirmPassword := "", "";
      loading, error, calls, route := false, "", [], None;
      requirements := Requirements(false, false, false, false, false);
    }

    /** `handlePasswordChange(field)(value)`: clears the error; only a
        new-password edit recomputes the flags. */
    method HandlePasswordChange(field: Field, value: string)
      modifies this`currentPassword, this`newPassword, this`confirmPassword, this`error, this`requirements
      ensures error == ""
      ensures currentPassword == (if field == CurrentPassword then value else old(currentPassword))
      ensures newPassword == (if field == NewPassword then value else old(newPassword))
      ensures confirmPassword == (if field == ConfirmPassword then value else old(confirmPassword))
      ensures requirements == (if field == NewPassword then CheckRequirements(value) else old(requirements))
      ensures old(FlagsCurrent()) ==> FlagsCurrent()
    {
      match field {
        case CurrentPassword => currentPassword := value;
        case NewPassword => newPassword := value;
        case ConfirmPassword => confirmPassword := value;
      }
      error := "";
      if field == NewPassword {
        requirements := CheckRequirements(value);
      }
    }

    /** `handleUpdatePassword` for the signed-in user's `email`: no e-mail
        returns silently, a failed guard sets its message; otherwise
        reauthentication, the update and the sign-out run until one throws
        (`failAt`), and a full run goes to the login form with the fixed
        message. */
    method HandleUpdatePassword(email: Option<string>, failAt: nat, errMessage: string)
      modifies this`loading, this`error, this`calls, this`route
      ensures !Present(email) ==>
        loading == old(loading) && error == old(error) && calls == old(calls) && route == old(route)
      ensures Present(email) && GuardError(requirements, newPassword, confirmPassword).Some? ==>
        && error == GuardError(requirements, newPassword, confirmPassword).value
        && loading == old(loading) && calls == old(calls) && route == old(route)
      ensures Present(email) && GuardError(requirements, newPassword, confirmPassword).None? ==>
        && calls == old(calls) + Issued(UpdateCalls(email.value, currentPassword, newPassword), failAt)
        && !loading
        && (failAt < 3 ==> error == errMessage && route == old(route))
        && (failAt >= 3 ==> error == "" && route == Some(LoginRoute(Some(DONE_MSG))))
    {
      if !Present(email) {
        return;
      }
      var g := GuardError(requirements, newPassword, confirmPassword);
      if g.Some? {
        error := g.value;
        return;
      }
      loading := true;
      error := "";
      calls := calls + Issued(UpdateCalls(email.value, currentPassword, newPassword), failAt);
      if failAt < 3 {
        error := errMessage;
      } else {
        route := Some(LoginRoute(Some(DONE_MSG)));
      }
      loading := false;
    }

    /** "Cancel and Return to Login": the sign-out is not awaited, so the
        navigation happens whatever its outcome. */
    method Cancel()
      modifies this`calls, this`route
      ensures calls == old(calls) + [SignOut]
      ensures route == Some(LoginRoute(None))
    {
      calls := calls + [SignOut];
      route := Some(LoginRoute(None));
    }
  }

  /** The login form sends a non-compliant password here and this form's
      update call carries a compliant new password: a successful update
      never reinstates a password the policy rejects. */
  lemma UpdatedPasswordIsCompliant(reqs: Requirements, newPassword: string, confirm: string)
    requires reqs == CheckRequirements(newPassword)
    requires GuardError(reqs, newPassword, confirm).None?
    ensures CheckPasswordComplexity(newPassword)
  {
    ComplexityIsAllMet(newPassword);
  }
}
