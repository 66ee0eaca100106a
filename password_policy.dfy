/** The password policy shared by the sign-up, settings, password-update
    and login forms (each file carries its own copy of the same five
    rules), and the vocabulary the forms use for what they do outside
    their own state: the authentication calls they issue and the route
    they navigate to. */
module PasswordPolicy {
  import opened Common

  /** The characters of the `special` rule's class. */
  const SPECIAL_CHARS: string := "!@#$%^&*(),.?\":{}|<>"

  const MIN_LENGTH: nat := 12

  /** The five requirement flags a form shows next to the password. */
  datatype Requirements = Requirements(length: bool, uppercase: bool, lowercase: bool, number: bool, special: bool)

  /** `/[lo-hi]/.test(s)`. */
  predicate HasCharBetween(s: string, lo: char, hi: char) {
    exists i :: 0 <= i < |s| && lo <= s[i] <= hi
  }

  /** `/[!@#$%^&*(),.?":{}|<>]/.test(s)`. */
  predicate HasSpecial(s: string) {
    exists i :: 0 <= i < |s| && s[i] in SPECIAL_CHARS
  }

  /** `checkPasswordRequirements`: `password.length` counts UTF-16 code
      units, the classes are ASCII-only. */
  function CheckRequirements(pw: string): (r: Requirements)
    ensures r.length <==> Utf16Length(pw) >= MIN_LENGTH
    ensures r.uppercase <==> HasCharBetween(pw, 'A', 'Z')
    ensures r.lowercase <==> HasCharBetween(pw, 'a', 'z')
    ensures r.number <==> HasCharBetween(pw, '0', '9')
    ensures r.special <==> HasSpecial(pw)
  {
    Requirements(Utf16Length(pw) >= MIN_LENGTH, HasCharBetween(pw, 'A', 'Z'),
                 HasCharBetween(pw, 'a', 'z'), HasCharBetween(pw, '0', '9'), HasSpecial(pw))
  }

  /** `allRequirementsMet`: every flag is set. */
  predicate AllMet(r: Requirements) {
    r.length && r.uppercase && r.lowercase && r.number && r.special
  }

  /** `passwordsMatch`: equal and non-empty. */
  predicate PasswordsMatch(pw: string, confirm: string) {
    pw == confirm && pw != ""
  }

  /** The login form's `checkPasswordComplexity`, written there as its own
      conjunction of the same five tests. */
  predicate CheckPasswordComplexity(pw: string) {
    && Utf16Length(pw) >= 12
    && HasCharBetween(pw, 'A', 'Z') && HasCharBetween(pw, 'a', 'z')
    && HasCharBetween(pw, '0', '9') && HasSpecial(pw)
  }

  /** The login form's test and the other forms' flags agree on every
      password. */
  lemma ComplexityIsAllMet(pw: string)
    ensures CheckPasswordComplexity(pw) <==> AllMet(CheckRequirements(pw))
  {
  }

  /** The empty password sets no flag: the flags a form starts with are
      those of its empty password field. */
  lemma EmptyPasswordFlags()
    ensures CheckRequirements("") == Requirements(false, false, false, false, false)
  {
  }

  lemma {:induction false} Utf16LengthAppend(a: string, b: string)
    ensures Utf16Length(a + b) == Utf16Length(a) + Utf16Length(b)
    decreases |a|
  {
    if a == [] {
      assert a + b == b;
    } else {
      assert (a + b)[0] == a[0] && (a + b)[1..] == a[1..] + b;
      Utf16LengthAppend(a[1..], b);
    }
  }

  /** Typing more characters never clears a flag. */
  lemma ExtendingKeepsFlags(pw: string, more: string)
    ensures var r := CheckRequirements(pw);
      var r' := CheckRequirements(pw + more);
      && (r.length ==> r'.length) && (r.uppercase ==> r'.uppercase)
      && (r.lowercase ==> r'.lowercase) && (r.number ==> r'.number)
      && (r.special ==> r'.special)
  {
    Utf16LengthAppend(pw, more);
    var s := pw + more;
    assert forall i :: 0 <= i < |pw| ==> s[i] == pw[i];
  }

  /** A compliant password of the minimum length. */
  lemma MinimalCompliantPassword()
    ensures AllMet(CheckRequirements("Abcdefghij1!"))
  {
    var pw := "Abcdefghij1!";
    assert HasCharBetween(pw, 'A', 'Z') by { assert 'A' <= pw[0] <= 'Z'; }
    assert HasCharBetween(pw, 'a', 'z') by { assert 'a' <= pw[1] <= 'z'; }
    assert HasCharBetween(pw, '0', '9') by { assert '0' <= pw[10] <= '9'; }
    assert HasSpecial(pw) by { assert pw[11] == SPECIAL_CHARS[0]; }
    assert Utf16Length(pw) == 12 by {
      assert |pw| == 12;
      assert forall i :: 0 <= i < |pw| ==> pw[i] as int <= 0xFFFF;
    }
  }

  /** The length rule counts code units: eight characters, four of them
      outside the Basic Multilingual Plane, pass it. */
  lemma AstralCharactersCountTwice()
    ensures var pw := "Aa1!" + "\U{1F600}\U{1F600}\U{1F600}\U{1F600}";
      |pw| == 8 && AllMet(CheckRequirements(pw))
  {
    var pw := "Aa1!" + "\U{1F600}\U{1F600}\U{1F600}\U{1F600}";
    assert 'A' <= pw[0] <= 'Z' && 'a' <= pw[1] <= 'z' && '0' <= pw[2] <= '9' && pw[3] in SPECIAL_CHARS;
    Utf16LengthAppend("Aa1!", "\U{1F600}\U{1F600}\U{1F600}\U{1F600}");
    assert Utf16Length("Aa1!") == 4;
    assert Utf16Length("\U{1F600}\U{1F600}\U{1F600}\U{1F600}") == 8;
  }

  /** A password shorter than twelve code points in the Basic Multilingual
      Plane never passes. */
  lemma ShortBmpPasswordFails(pw: string)
    requires |pw| < MIN_LENGTH && forall i :: 0 <= i < |pw| ==> pw[i] as int <= 0xFFFF
    ensures !AllMet(CheckRequirements(pw))
  {
  }

  // ---------------------------------------------------------------------
  // What the forms do outside their state

  /** The authentication calls the forms make, with their arguments. */
  datatype AuthCall =
    | CreateUser(email: string, password: string)
    | UpdateDisplayName(displayName: string)
    | SendVerification
    | Reauthenticate(email: string, password: string)
    | UpdatePassword(newPassword: string)
    | SignOut
    | SignIn(email: string, password: string)

  /** The routes the forms navigate to, with their navigation state. */
  datatype Route =
    | VerifyEmailRoute(email: string)
    | LoginRoute(message: Option<string>)
    | UpdatePasswordRoute(currentPassword: string)
    | HomeRoute

  /** The calls a chain of awaited calls issues when the call numbered
      `failAt` (from 0) throws; a `failAt` past the chain means none
      does. */
  function Issued(planned: seq<AuthCall>, failAt: nat): (r: seq<AuthCall>)
    ensures failAt < |planned| ==> r == planned[..failAt + 1]
    ensures failAt >= |planned| ==> r == planned
    ensures |r| <= |planned| && r == planned[..|r|]
  {
    if failAt < |planned| then planned[..failAt + 1] else planned
  }
}
