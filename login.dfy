/** The login form: e-mail and password, a success banner that a
    navigation message can prefill, ordered validation, then sign-in and
    the three ways out: back to an unverified user's sign-out, to the
    forced password update when the password no longer meets the policy,
    or home. */
module Login {
  import opened Common
  import opened PasswordPolicy

  const EMAIL_MSG: string := "Please enter your email"
  const PASSWORD_MSG: string := "Please enter your password"
  const UNVERIFIED_MSG: string := "Please verify your email before logging in"

  datatype Field = Email | Password

  /** `validateForm`: the message of the first blank field, none when both
      are filled. */
  function ValidationError(email: string, password: string): (r: Option<string>)
    ensures r.None? <==> !IsBlank(email) && !IsBlank(password)
    ensures IsBlank(email) ==> r == Some(EMAIL_MSG)
    ensures !IsBlank(email) && IsBlank(password) ==> r == Some(PASSWORD_MSG)
  {
    if IsBlank(email) then Some(EMAIL_MSG)
    else if IsBlank(password) then Some(PASSWORD_MSG)
    else None
  }

  /** Where a successful sign-in of a verified user leads. */
  function Destination(password: string): (r: Route)
    ensures r == HomeRoute <==> CheckPasswordComplexity(password)
    ensures r != HomeRoute ==> r == UpdatePasswordRoute(password)
  {
    if CheckPasswordComplexity(password) then HomeRoute else UpdatePasswordRoute(password)
  }

  class LoginForm {
    var email: string
    var password: string
    var loading: bool
    var error: string
    var success: string
    var calls: seq<AuthCall>
    var route: Option<Route>

    /** `navMessage` is the `message` of the navigation state, if any. */
    constructor (navMessage: Option<string>)
      ensures email == "" && password == "" && !loading && error == ""
      ensures success == StringOr(navMessage, "")
      ensures calls == [] && route.None?
    {
      email, password, loading, error := "", "", false, "";
      success := StringOr(navMessage, "");
      calls, route := [], None;
    }

    /** `handleChange(field)(value)`: any edit clears both banners. */
    method HandleChange(field: Field, value: string)
      modifies this`email, this`password, this`error, this`success
      ensures email == (if field == Email then value else old(email))
      ensures password == (if field == Password then value else old(password))
      ensures error == "" && success == ""
    {
      if field == Email {
        email := value;
      } else {
        password := value;
      }
      error := "";
      success := "";
    }

    /** `handleLogin`. `signInOk` and `emailVerified` are the sign-in's
        outcome, `signOutOk` that of the sign-out of an unverified user;
        `errMessage` is the message of whichever call throws. The sign-out's
        own failure replaces the unverified message. */
    method HandleLogin(signInOk: bool, emailVerified: bool, signOutOk: bool, errMessage: string)
      modifies this`loading, this`error, this`success, this`calls, this`route
      ensures ValidationError(email, password).Some? ==>
        && error == ValidationError(email, password).value
        && loading == old(loading) && success == old(success)
        && calls == old(calls) && route == old(route)
      ensures ValidationError(email, password).None? ==> !loading && success == ""
      ensures ValidationError(email, password).None? && !signInOk ==>
        && calls == old(calls) + [SignIn(email, password)]
        && error == errMessage && route == old(route)
      ensures ValidationError(email, password).None? && signInOk && !emailVerified ==>
        && calls == old(calls) + [SignIn(email, password), SignOut]
        && error == (if signOutOk then UNVERIFIED_MSG else errMessage)
        && route == old(route)
      ensures ValidationError(email, password).None? && signInOk && emailVerified ==>
        && calls == old(calls) + [SignIn(email, password)]
        && error == ""
        && route == Some(Destination(password))
    {
      var v := ValidationError(email, password);
      if v.Some? {
        error := v.value;
        return;
      }
      loading := true;
      error := "";
      success := "";
      calls := calls + [SignIn(email, password)];
      if !signInOk {
        error := errMessage;
      } else if !emailVerified {
        error := UNVERIFIED_MSG;
        calls := calls + [SignOut];
        if !signOutOk {
          error := errMessage;
        }
      } else {
        route := Some(Destination(password));
      }
      loading := false;
    }
  }

  /** A password that passed validation reaches the update form intact:
      it is never empty, so that form's `currentPassword || ''` keeps it. */
  lemma ForcedUpdateCarriesPassword(email: string, password: string)
    requires ValidationError(email, password).None?
    ensures StringOr(Some(password), "") == password
  {
    assert Trim("") == "";
  }

  /** The forced update is reached exactly by the non-compliant passwords,
      that is, by those some flag of the other forms rejects. */
  lemma ForcedUpdateIffNonCompliant(password: string)
    ensures Destination(password) == UpdatePasswordRoute(password) <==> !AllMet(CheckRequirements(password))
  {
    ComplexityIsAllMet(password);
  }
}
