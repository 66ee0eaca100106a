/** The sign-up form: four fields, live requirement flags for the
    password, ordered validation with a first-failure message, then
    account creation, the display name, the verification e-mail and the
    move to the verification screen. */
module SignUp {
  import opened Common
  import opened PasswordPolicy

  const NAME_MSG: string := "Please enter your name"
  const EMAIL_MSG: string := "Please enter your email"
  const REQUIREMENTS_MSG: string := "Please meet all password requirements"
  const MISMATCH_MSG: string := "Passwords do not match"

  datatype Field = DisplayName | Email | Password | ConfirmPassword

  /** `validateForm`: the message of the first failing check, in the order
      name, e-mail, requirement flags, match; none when all pass. */
  function ValidationError(displayName: string, email: string, reqs: Requirements,
                           password: string, confirm: string): (r: Option<string>)
    ensures r.None? <==>
      !IsBlank(displayName) && !IsBlank(email) && AllMet(reqs) && PasswordsMatch(password, confirm)
    ensures IsBlank(displayName) ==> r == Some(NAME_MSG)
    ensures !IsBlank(displayName) && IsBlank(email) ==> r == Some(EMAIL_MSG)
    ensures !IsBlank(displayName) && !IsBlank(email) && !AllMet(reqs) ==> r == Some(REQUIREMENTS_MSG)
    ensures !IsBlank(displayName) && !IsBlank(email) && AllMet(reqs) && !PasswordsMatch(password, confirm) ==>
      r == Some(MISMATCH_MSG)
  {
    if IsBlank(displayName) then Some(NAME_MSG)
    else if IsBlank(email) then Some(EMAIL_MSG)
    else if !AllMet(reqs) then Some(REQUIREMENTS_MSG)
    else if !PasswordsMatch(password, confirm) then Some(MISMATCH_MSG)
    else None
  }

  /** The three calls of a sign-up, in order. */
  function SignUpCalls(displayName: string, email: string, password: string): seq<AuthCall> {
    [CreateUser(email, password), UpdateDisplayName(displayName), SendVerification]
  }

  /** The enabled button (every flag set, the confirmation matching)
      leaves only the name and e-mail checks to fail. */
  lemma EnabledButtonChecksOnlyNameAndEmail(displayName: string, email: string, reqs: Requirements, password: string, confirm: string)
    requires AllMet(reqs) && PasswordsMatch(password, confirm)
    ensures var e := ValidationError(displayName, email, reqs, password, confirm);
      && (e.None? <==> !IsBlank(displayName) && !IsBlank(email))
      && (e.Some? ==> e.value == NAME_MSG || e.value == EMAIL_MSG)
  {
  }

  /** With current flags, a whitespace-only password never gets past
      validation. */
  lemma BlankPasswordRejected(displayName: string, email: string, password: string, confirm: string)
    requires AllWhitespace(password)
    ensures ValidationError(displayName, email, CheckRequirements(password), password, confirm).Some?
  {
    forall i | 0 <= i < |password| ensures !('A' <= password[i] <= 'Z') {
      assert IsJsWhitespace(password[i]);
    }
  }

  class SignUpForm {
    var displayName: string
    var email: string
    var password: string
    var confirmPassword: string
    var loading: bool
    var error: string
    var requirements: Requirements
    /** The authentication calls issued so far. */
    var calls: seq<AuthCall>
    var route: Option<Route>

    /** The flags describe the current password. */
    ghost predicate FlagsCurrent()
      reads this
    {
      requirements == CheckRequirements(password)
    }

    constructor ()
      ensures displayName == "" && email == "" && password == "" && confirmPassword == ""
      ensures !loading && error == "" && calls == [] && route.None?
      ensures requirements == Requirements(false, false, false, false, false)
      ensures FlagsCurrent()
    {
      displayName, email, password, confirmPassword := "", "", "", "";
      loading, error, calls, route := false, "", [], None;
      requirements := Requirements(false, false, false, false, false);
    }

    /** The sign-up button is enabled. */
    predicate SubmitEnabled()
      reads this
    {
      !loading && AllMet(requirements) && PasswordsMatch(password, confirmPassword)
    }

    /** `handleChange(field)(value)`: any edit clears the error; only a
        password edit recomputes the flags. */
    method HandleChange(field: Field, value: string)
      modifies this`displayName, this`email, this`password, this`confirmPassword, this`error, this`requirements
      ensures error == ""
      ensures displayName == (if field == DisplayName then value else old(displayName))
      ensures email == (if field == Email then value else old(email))
      ensures password == (if field == Password then value else old(password))
      ensures confirmPassword == (if field == ConfirmPassword then value else old(confirmPassword))
      ensures requirements == (if field == Password then CheckRequirements(value) else old(requirements))
      ensures old(FlagsCurrent()) ==> FlagsCurrent()
    {
      match field {
        case DisplayName => displayName := value;
        case Email => email := value;
        case Password => password := value;
        case ConfirmPassword => confirmPassword := value;
      }
      error := "";
      if field == Password {
        requirements := CheckRequirements(value);
      }
    }

    /** `handleSignUp`: a failed validation sets its message and issues no
        call; otherwise the three calls run in order until one throws
        (`failAt`, with `errMessage`), and only a full run navigates. */
    method HandleSignUp(failAt: nat, errMessage: string)
      modifies this`loading, this`error, this`calls, this`route
      ensures var v := ValidationError(displayName, email, requirements, password, confirmPassword);
        && (v.Some? ==>
              error == v.value && calls == old(calls) && route == old(route) && loading == old(loading))
        && (v.None? ==>
              && calls == old(calls) + Issued(SignUpCalls(displayName, email, password), failAt)
              && !loading
              && (failAt < 3 ==> error == errMessage && route == old(route))
              && (failAt >= 3 ==> error == "" && route == Some(VerifyEmailRoute(email))))
    {
      var v := ValidationError(displayName, email, requirements, password, confirmPassword);
      if v.Some? {
        error := v.value;
        return;
      }
      loading := true;
      error := "";
      calls := calls + Issued(SignUpCalls(displayName, email, password), failAt);
      if failAt < 3 {
        error := errMessage;
      } else {
        route := Some(VerifyEmailRoute(email));
      }
      loading := false;
    }
  }
}
