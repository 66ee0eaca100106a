/** The e-mail verification screen: a resend countdown that a one-second
    interval decrements, the resend action it gates, and a poll that
    leaves for the login form once the user has verified. */
module EmailVerification {
  import opened Common
  import opened PasswordPolicy

  const COUNTDOWN_START: int := 60
  const RESENT_ALERT: string := "Verification email has been resent."
  const NO_USER_ALERT: string := "Unable to resend verification email. Please try signing up again."
  const ERROR_PREFIX: string := "Error: "

  /** The resend button is disabled. */
  predicate ResendDisabled(countdown: int) {
    countdown > 0
  }

  /** The resend button's label. */
  function ResendLabel(countdown: nat): (r: string)
    ensures ResendDisabled(countdown) ==>
      && |r| > 11 && r[..10] == "Resend in " && r[|r| - 1] == 's'
      && IsDecimal(r[10..|r| - 1]) && DecimalValue(r[10..|r| - 1]) == countdown
    ensures !ResendDisabled(countdown) ==> r == "Resend"
  {
    if countdown > 0 then
      var digits := NatToString(countdown);
      var r := "Resend in " + digits + "s";
      NatToStringValue(countdown);
      assert r[10..|r| - 1] == digits;
      r
    else "Resend"
  }

  /** The label tells the two states apart. */
  lemma LabelShowsDisabled(countdown: nat)
    ensures ResendLabel(countdown) == "Resend" <==> !ResendDisabled(countdown)
  {
    if countdown > 0 {
      assert |ResendLabel(countdown)| > |"Resend"|;
    }
  }

  /** The countdown after `n` ticks of the interval from `c`. */
  function AfterTicks(c: int, n: nat): (r: int)
    ensures c >= 0 ==> 0 <= r <= c
    decreases n
  {
    if n == 0 then c else AfterTicks(if c > 0 then c - 1 else c, n - 1)
  }

  /** From a non-negative value, `n` ticks take the countdown down by `n`,
      stopping at zero: it never goes negative. */
  lemma {:induction false} AfterTicksClamps(c: int, n: nat)
    requires c >= 0
    ensures AfterTicks(c, n) == if c >= n then c - n else 0
    decreases n
  {
    if n > 0 {
      AfterTicksClamps(if c > 0 then c - 1 else c, n - 1);
    }
  }

  /** Sixty ticks after a reset, resending is possible again. */
  lemma ResendEnabledAfterSixtyTicks()
    ensures !ResendDisabled(AfterTicks(COUNTDOWN_START, 60))
  {
    AfterTicksClamps(COUNTDOWN_START, 60);
  }

  class VerificationScreen {
    var countdown: int
    /** The address shown in the instructions. */
    var email: string
    var route: Option<Route>
    var sent: nat

    ghost predicate Valid()
      reads this
    {
      0 <= countdown <= COUNTDOWN_START
    }

    /** `navEmail` is the `email` of the navigation state, if any. */
    constructor (navEmail: Option<string>)
      ensures Valid() && countdown == COUNTDOWN_START
      ensures email == StringOr(navEmail, "")
      ensures route.None? && sent == 0
    {
      countdown := COUNTDOWN_START;
      email := StringOr(navEmail, "");
      route := None;
      sent := 0;
    }

    /** One interval tick: decrement only while positive. */
    method Tick()
      modifies this`countdown
      ensures countdown == AfterTicks(old(countdown), 1)
      ensures old(countdown) > 0 ==> countdown == old(countdown) - 1
      ensures old(countdown) <= 0 ==> countdown == old(countdown)
      ensures old(Valid()) ==> Valid()
    {
      if countdown > 0 {
        countdown := countdown - 1;
      }
    }

    /** `handleResendCode`, returning the alert it shows. `hasUser` says
        whether someone is signed in, `sendOk` whether the verification
        e-mail went out, `errMessage` the message when it did not. */
    method HandleResendCode(hasUser: bool, sendOk: bool, errMessage: string) returns (alert: Option<string>)
      modifies this`countdown, this`sent
      ensures ResendDisabled(old(countdown)) ==> alert.None? && countdown == old(countdown) && sent == old(sent)
      ensures !ResendDisabled(old(countdown)) && !hasUser ==>
        alert == Some(NO_USER_ALERT) && countdown == old(countdown) && sent == old(sent)
      ensures !ResendDisabled(old(countdown)) && hasUser && !sendOk ==>
        alert == Some(ERROR_PREFIX + errMessage) && countdown == old(countdown) && sent == old(sent) + 1
      ensures !ResendDisabled(old(countdown)) && hasUser && sendOk ==>
        alert == Some(RESENT_ALERT) && countdown == COUNTDOWN_START && sent == old(sent) + 1
      ensures old(Valid()) ==> Valid()
    {
      if countdown > 0 {
        return None;
      }
      if !hasUser {
        return Some(NO_USER_ALERT);
      }
      sent := sent + 1;
      if !sendOk {
        return Some(ERROR_PREFIX + errMessage);
      }
      countdown := COUNTDOWN_START;
      alert := Some(RESENT_ALERT);
    }

    /** One poll: with a signed-in user whose reloaded record is verified,
        go to the login form. */
    method Poll(hasUser: bool, verifiedAfterReload: bool)
      modifies this`route
      ensures hasUser && verifiedAfterReload ==> route == Some(LoginRoute(None))
      ensures !(hasUser && verifiedAfterReload) ==> route == old(route)
    {
      if hasUser && verifiedAfterReload {
        route := Some(LoginRoute(None));
      }
    }
  }
}
