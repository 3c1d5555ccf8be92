/** The sign-up form: two password checks before the account is requested,
    then the flags that say how the attempt ended. With a referral, a created
    account is linked to its referrer record; a failed link still counts as a
    successful sign-up. */
module Signup {
  import opened Domain

  const MismatchError := "Passwords do not match"
  const TooShortError := "Password must be at least 6 characters"
  const MinPasswordLength := 6

  /** The password checks, in their order: the match first, then the length. */
  function PasswordError(password: string, confirm: string): (err: Option<string>)
    ensures err.None? <==> password == confirm && |password| >= MinPasswordLength
    ensures password != confirm ==> err == Some(MismatchError)
    ensures password == confirm && |password| < MinPasswordLength ==> err == Some(TooShortError)
  {
    if password != confirm then Some(MismatchError)
    else if |password| < MinPasswordLength then Some(TooShortError)
    else None
  }

  /** A short password that also does not match is reported as a mismatch:
      the length check is never reached. */
  lemma MismatchReportedFirst(password: string, confirm: string)
    requires password != confirm && |password| < MinPasswordLength
    ensures PasswordError(password, confirm) != Some(TooShortError)
  {
  }

  /** The referral the page resolved from its link, if any. */
  datatype SignupReferrer = SignupReferrer(name: string, companyName: string, referrerId: Id)

  /** What `signUp` returned: an error with its message, or no error, with or
      without a user in the returned data. */
  datatype SignUpOutcome = SignUpFailed(message: string) | SignedUp(userCreated: bool)

  class SignupPage {
    const referrerInfo: Option<SignupReferrer>
    var password: string
    var confirmPassword: string
    var error: string
    var success: bool
    var loading: bool
    var linkingReferrer: bool

    constructor(referrerInfo: Option<SignupReferrer>, password: string, confirmPassword: string)
      ensures this.referrerInfo == referrerInfo
      ensures this.password == password && this.confirmPassword == confirmPassword
      ensures error == "" && !success && !loading && !linkingReferrer
    {
      this.referrerInfo := referrerInfo;
      this.password := password;
      this.confirmPassword := confirmPassword;
      error, success, loading, linkingReferrer := "", false, false, false;
    }

    /** `handleSubmit`: `outcome` is what `signUp` returns and `linkOk` whether
        the referrer link (session check and update) succeeded. `signUpCalled`
        says whether `signUp` was called at all. */
    method HandleSubmit(outcome: SignUpOutcome, linkOk: bool) returns (signUpCalled: bool)
      modifies this`error, this`success, this`loading, this`linkingReferrer
      // a failed password check: the account is not requested
      ensures PasswordError(password, confirmPassword).Some? ==>
        !signUpCalled && error == PasswordError(password, confirmPassword).value && !success &&
        loading == old(loading) && linkingReferrer == old(linkingReferrer)
      ensures PasswordError(password, confirmPassword).None? ==> signUpCalled
      // a sign-up error shows its message and leaves success false
      ensures signUpCalled && outcome.SignUpFailed? ==>
        error == outcome.message && !loading && !success && linkingReferrer == old(linkingReferrer)
      // with a referral and a created user the page links the referrer
      ensures signUpCalled && outcome.SignedUp? && referrerInfo.Some? && outcome.userCreated ==>
        error == "" && !loading && (linkOk ==> linkingReferrer && !success) && (!linkOk ==> !linkingReferrer && success)
      // otherwise a sign-up without error is a success
      ensures signUpCalled && outcome.SignedUp? && !(referrerInfo.Some? && outcome.userCreated) ==>
        error == "" && !loading && success && linkingReferrer == old(linkingReferrer)
    {
      error := "";
      success := false;
      var invalid := PasswordError(password, confirmPassword);
      if invalid.Some? {
        error := invalid.value;
        return false;
      }
      loading := true;
      signUpCalled := true;
      if outcome.SignUpFailed? {
        error := outcome.message;
        loading := false;
        return;
      }
      if referrerInfo.Some? && outcome.userCreated {
        loading := false;
        linkingReferrer := true;
        if linkOk {
          return;
        }
        linkingReferrer := false;
        success := true;
        return;
      }
      success := true;
      loading := false;
    }
  }
}
