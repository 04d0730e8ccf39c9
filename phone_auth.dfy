/** Signing in with a phone number: the number is sent a six-digit code
    (behind an invisible reCAPTCHA created on first use), which the user then
    enters to finish. */
module PhoneAuth {
  import opened Common
  import opened Strings
  import opened AuthMessages
  import ContactImport

  const SendFailedFallback := "Failed to send verification code"
  const VerifyFailedFallback := "Verification failed"
  const CodeLength := 6

  const InvalidPhone := "auth/invalid-phone-number"
  const TooManyRequests := "auth/too-many-requests"
  const InvalidCode := "auth/invalid-verification-code"
  const CodeExpired := "auth/code-expired"

  const SendRules: seq<Rule> := [
    Rule([InvalidPhone], "Please enter a valid phone number."),
    Rule([TooManyRequests], "Too many attempts. Please try again later.")
  ]

  const VerifyRules: seq<Rule> := [
    Rule([InvalidCode], "Invalid verification code. Please try again."),
    Rule([CodeExpired], "Code expired. Please request a new one.")
  ]

  /** The number handleSendCode sends: kept as typed when it starts with `+`,
      otherwise its digits behind the `+1` country code. */
  function FormatPhone(p: string): (r: string)
    ensures StartsWith(r, "+")
    ensures StartsWith(p, "+") ==> r == p
  {
    if StartsWith(p, "+") then p else "+1" + Digits(p)
  }

  /** A number typed without `+` is sent in the normal form the contact
      importer produces, as a North American number: `+1` and its digits. */
  lemma FormattedPhoneIsNormal(p: string)
    requires !StartsWith(p, "+")
    ensures ContactImport.IsNormalPhone(FormatPhone(p))
    ensures FormatPhone(p)[2..] == Digits(p) && FormatPhone(p)[..2] == "+1"
  {
    var r := FormatPhone(p);
    assert r[1..] == "1" + Digits(p);
  }

  /** Formatting a formatted number changes nothing. */
  lemma FormatPhoneIdempotent(p: string)
    ensures FormatPhone(FormatPhone(p)) == FormatPhone(p)
  {
    var r := FormatPhone(p);
    assert StartsWith(r, "+");
  }

  /** The code field keeps the digits of what is typed, at most six characters
      being typed. */
  function CodeInput(typed: string): (r: string)
    ensures AllDigits(r) && |r| <= CodeLength
    ensures AllDigits(typed) && |typed| <= CodeLength ==> r == typed
  {
    var kept := if |typed| <= CodeLength then typed else typed[..CodeLength];
    assert AllDigits(kept) ==> Digits(kept) == kept by {
      if AllDigits(kept) {
        DigitsOfDigits(kept);
      }
    }
    Digits(kept)
  }

  /** The verify button is disabled while waiting or until six digits are in. */
  predicate VerifyDisabled(loading: bool, code: string)
  {
    loading || |code| != CodeLength
  }

  datatype Step = EnterPhone | EnterCode

  class PhoneForm {
    var step: Step
    var phoneNumber: string
    var verificationCode: string
    var loading: bool
    var error: Option<string>
    /** The confirmation handle, here the number the code was sent to. */
    var confirmation: Option<string>
    /** How many reCAPTCHA verifiers were created. */
    var recaptchasCreated: nat
    /** The numbers codes were requested for, oldest first. */
    var sent: seq<string>
    /** The `(number, code)` verifications attempted, oldest first. */
    var verified: seq<(string, string)>
    /** How many times `onSuccess` was called. */
    var successes: nat

    /** At most one reCAPTCHA, made before the first request; the code field
        holds digits only; a code is asked for only once one was sent. */
    predicate Valid()
      reads this
    {
      recaptchasCreated <= 1
      && (|sent| > 0 ==> recaptchasCreated == 1)
      && AllDigits(verificationCode) && |verificationCode| <= CodeLength
      && (confirmation.Some? ==> confirmation.value in sent)
    }

    constructor()
      ensures Valid() && step == EnterPhone && phoneNumber == "" && verificationCode == ""
      ensures !loading && error.None? && confirmation.None?
      ensures recaptchasCreated == 0 && sent == [] && verified == [] && successes == 0
    {
      step := EnterPhone;
      phoneNumber, verificationCode := "", "";
      loading := false;
      error := None;
      confirmation := None;
      recaptchasCreated := 0;
      sent, verified := [], [];
      successes := 0;
    }

    method TypeCode(typed: string)
      requires Valid()
      modifies this
      ensures Valid() && verificationCode == CodeInput(typed)
      ensures step == old(step) && phoneNumber == old(phoneNumber) && loading == old(loading)
      ensures error == old(error) && confirmation == old(confirmation)
      ensures recaptchasCreated == old(recaptchasCreated) && sent == old(sent)
      ensures verified == old(verified) && successes == old(successes)
    {
      verificationCode := CodeInput(typed);
    }

    /** handleSendCode: formats the number, creates the reCAPTCHA if there is
        none yet, and requests a code; on success the code step follows, on
        failure the chain's text is shown. Loading ends either way. `failure`
        is how the request went (None when it succeeded). */
    method HandleSendCode(failure: Option<Thrown>)
      requires Valid()
      modifies this
      ensures Valid() && !loading
      ensures recaptchasCreated == 1
      ensures sent == old(sent) + [FormatPhone(phoneNumber)]
      ensures failure.None? ==>
                step == EnterCode && error.None? && confirmation == Some(FormatPhone(phoneNumber))
      ensures failure.Some? ==>
                step == old(step) && confirmation == old(confirmation)
                && error == Some(Friendly(MessageOr(failure.value, SendFailedFallback), SendRules))
      ensures phoneNumber == old(phoneNumber) && verificationCode == old(verificationCode)
      ensures verified == old(verified) && successes == old(successes)
    {
      loading := true;
      error := None;
      var formattedPhone := FormatPhone(phoneNumber);
      if recaptchasCreated == 0 {
        recaptchasCreated := 1;
      }
      sent := sent + [formattedPhone];
      if failure.None? {
        confirmation := Some(formattedPhone);
        step := EnterCode;
      } else {
        error := Some(Friendly(MessageOr(failure.value, SendFailedFallback), SendRules));
      }
      loading := false;
    }

    /** handleVerifyCode: without a code sent nothing happens; otherwise the
        code is checked, success reports to the caller and failure shows the
        chain's text. Loading ends either way. */
    method HandleVerifyCode(failure: Option<Thrown>)
      requires Valid()
      modifies this
      ensures Valid()
      ensures old(confirmation).None? ==>
                verified == old(verified) && successes == old(successes)
                && error == old(error) && loading == old(loading)
      ensures old(confirmation).Some? ==>
                verified == old(verified) + [(old(confirmation).value, verificationCode)] && !loading
                && (failure.None? ==> error.None? && successes == old(successes) + 1)
                && (failure.Some? ==>
                      successes == old(successes)
                      && error == Some(Friendly(MessageOr(failure.value, VerifyFailedFallback), VerifyRules)))
      ensures step == old(step) && phoneNumber == old(phoneNumber) && verificationCode == old(verificationCode)
      ensures confirmation == old(confirmation) && recaptchasCreated == old(recaptchasCreated) && sent == old(sent)
    {
      if confirmation.None? {
        return;
      }
      loading := true;
      error := None;
      verified := verified + [(confirmation.value, verificationCode)];
      if failure.None? {
        successes := successes + 1;
      } else {
        error := Some(Friendly(MessageOr(failure.value, VerifyFailedFallback), VerifyRules));
      }
      loading := false;
    }

    /** "Didn't receive the code? Try again": back to the number, with the
        error and the code cleared. */
    method TryAgain()
      requires Valid()
      modifies this
      ensures Valid() && step == EnterPhone && error.None? && verificationCode == ""
      ensures phoneNumber == old(phoneNumber) && loading == old(loading) && confirmation == old(confirmation)
      ensures recaptchasCreated == old(recaptchasCreated) && sent == old(sent)
      ensures verified == old(verified) && successes == old(successes)
    {
      step := EnterPhone;
      error := None;
      verificationCode := "";
    }

    /** The header's back arrow: from the code step back to the number;
        from the number step out of the form (`onBack`), counted in `exits`. */
    method Back(exits: nat) returns (exitsAfter: nat)
      requires Valid()
      modifies this
      ensures Valid() && step == EnterPhone
      ensures old(step) == EnterCode ==> exitsAfter == exits
      ensures old(step) == EnterPhone ==> exitsAfter == exits + 1
      ensures phoneNumber == old(phoneNumber) && verificationCode == old(verificationCode)
      ensures error == old(error) && loading == old(loading) && confirmation == old(confirmation)
      ensures recaptchasCreated == old(recaptchasCreated) && sent == old(sent)
      ensures verified == old(verified) && successes == old(successes)
    {
      if step == EnterCode {
        step := EnterPhone;
        exitsAfter := exits;
      } else {
        exitsAfter := exits + 1;
      }
    }
  }
}
