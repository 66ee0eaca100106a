/** The change-password panel of the settings screen: three fields, live
    requirement flags for the new password, guards in the order e-mail,
    flags, match, then reauthentication and the password update. */
module Settings {
  import opened Common
  import opened PasswordPolicy

  const REQUIREMENTS_MSG: string := "Please meet all password requirements"
  const MISMATCH_MSG: string := "New passwords do not match"
  const SUCCESS_MSG: string := "Password updated successfully"

  datatype Field = CurrentPassword | NewPassword | ConfirmPassword

  /** The guards of `handleChangePassword` after the e-mail check: the
      message of the first failure, none when both pass. */
  function GuardError(reqs: Requirements, newPassword: string, confirm: string): (r: Option<string>)
    ensures r.None? <==> AllMet(reqs) && PasswordsMatch(newPassword, confirm)
    ensures !AllMet(reqs) ==> r == Some(REQUIREMENTS_MSG)
    ensures AllMet(reqs) && !PasswordsMatch(newPassword, confirm) ==> r == Some(MISMATCH_MSG)
  {
    if !AllMet(reqs) then Some(REQUIREMENTS_MSG)
    else if !PasswordsMatch(newPassword, confirm) then Some(MISMATCH_MSG)
    else None
  }

  /** The submit button is enabled: not loading, every flag set and the
      confirmation matching a non-empty new password. */
  predicate SubmitEnabled(loading: bool, reqs: Requirements, newPassword: string, confirm: string) {
    !loading && AllMet(reqs) && PasswordsMatch(newPassword, confirm)
  }

  /** The guard messages are reachable only while the button is disabled:
      an enabled button always passes both guards. */
  lemma EnabledButtonPassesGuards(loading: bool, reqs: Requirements, newPassword: string, confirm: string)
    ensures SubmitEnabled(loading, reqs, newPassword, confirm) <==>
      !loading && GuardError(reqs, newPassword, confirm).None?
  {
  }

  function ChangeCalls(email: string, currentPassword: string, newPassword: string): seq<AuthCall> {
    [Reauthenticate(email, currentPassword), UpdatePassword(newPassword)]
  }

  class PasswordPanel {
    var currentPassword: string
    var newPassword: string
    var confirmPassword: string
    var loading: bool
    var error: string
    var success: string
    var showChangePassword: bool
    var requirements: Requirements
    var calls: seq<AuthCall>

    ghost predicate FlagsCurrent()
      reads this
    {
      requirements == CheckRequirements(newPassword)
    }

    constructor ()
      ensures currentPassword == "" && newPassword == "" && confirmPassword == ""
      ensures !loading && error == "" && success == "" && !showChangePassword && calls == []
      ensures requirements == Requirements(false, false, false, false, false)
      ensures FlagsCurrent()
    {
      currentPassword, newPassword, confirmPassword := "", "", "";
      loading, error, success, showChangePassword, calls := false, "", "", false, [];
      requirements := Requirements(false, false, false, false, false);
    }

    /** The "Change Password" button opens or closes the panel. */
    method ToggleChangePassword()
      modifies this`showChangePassword
      ensures showChangePassword == !old(showChangePassword)
    {
      showChangePassword := !showChangePassword;
    }

    /** `handlePasswordChange(field)(value)`: any edit clears both messages;
        only a new-password edit recomputes the flags. */
    method HandlePasswordChange(field: Field, value: string)
      modifies this`currentPassword, this`newPassword, this`confirmPassword, this`error, this`success, this`requirements
      ensures error == "" && success == ""
      ensures currentPassword == (if field == CurrentPassword then value else old(currentPassword))
      ensures newPassword == (if field == NewPassword then value else old(newPassword))
      ensures confirmPassword == (if field == ConfirmPassword then value else old(confirmPassword))
      ensures requirements == (if field == NewPassword then CheckRequirements(value) else old(requirements))
      ensures old(FlagsCurrent()) ==> FlagsCurrent()
    {
      match field {
        case CurrentPassword => currentPassword := value;
        case NewPassword => newPassword := value;
        case ConfirmPassword => confirmPassword := value;
      }
      error := "";
      success := "";
      if field == NewPassword {
        requirements := CheckRequirements(value);
      }
    }

    /** `handleChangePassword` for the signed-in user's `email`. Without an
        e-mail nothing happens; a failed guard sets its message and skips
        reauthentication; otherwise the two calls run until one throws
        (`failAt`). A success empties the fields, closes the panel and sets
        the success message, but leaves the flags as they were. */
    method HandleChangePassword(email: Option<string>, failAt: nat, errMessage: string)
      modifies this`currentPassword, this`newPassword, this`confirmPassword, this`loading, this`error,
               this`success, this`showChangePassword, this`calls
      ensures !Present(email) ==>
        && currentPassword == old(currentPassword) && newPassword == old(newPassword)
        && confirmPassword == old(confirmPassword) && loading == old(loading) && error == old(error)
        && success == old(success) && showChangePassword == old(showChangePassword) && calls == old(calls)
      ensures Present(email) && GuardError(requirements, old(newPassword), old(confirmPassword)).Some? ==>
        && error == GuardError(requirements, old(newPassword), old(confirmPassword)).value
        && calls == old(calls) && loading == old(loading) && success == old(success)
        && currentPassword == old(currentPassword) && newPassword == old(newPassword)
        && confirmPassword == old(confirmPassword) && showChangePassword == old(showChangePassword)
      ensures Present(email) && GuardError(requirements, old(newPassword), old(confirmPassword)).None? ==>
        && calls == old(calls) + Issued(ChangeCalls(email.value, old(currentPassword), old(newPassword)), failAt)
        && !loading
        && (failAt < 2 ==>
              && error == errMessage && success == ""
              && currentPassword == old(currentPassword) && newPassword == old(newPassword)
              && confirmPassword == old(confirmPassword) && showChangePassword == old(showChangePassword))
        && (failAt >= 2 ==>
              && error == "" && success == SUCCESS_MSG
              && currentPassword == "" && newPassword == "" && confirmPassword == ""
              && !showChangePassword)
    {
      if !Present(email) {
        return;
      }
      var g := GuardError(requirements, newPassword, confirmPassword);
      if g.Some? {
        error := g.value;
        return;
      }
      loading := true;
      error := "";
      success := "";
      calls := calls + Issued(ChangeCalls(email.value, currentPassword, newPassword), failAt);
      if failAt < 2 {
        error := errMessage;
      } else {
        success := SUCCESS_MSG;
        currentPassword, newPassword, confirmPassword := "", "", "";
        showChangePassword := false;
      }
      loading := false;
    }
  }

  /** After a successful change the flags still describe the old new
      password, not the emptied field; the match rule still blocks a
      second submission until the field is edited again. */
  lemma StaleFlagsAfterSuccess(reqs: Requirements, newPassword: string, confirm: string)
    requires reqs == CheckRequirements(newPassword)
    requires GuardError(reqs, newPassword, confirm).None?
    ensures reqs != CheckRequirements("")
    ensures GuardError(reqs, "", "") == Some(MISMATCH_MSG)
  {
    EmptyPasswordFlags();
  }
}
