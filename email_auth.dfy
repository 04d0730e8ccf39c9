/** Signing in, or creating an account, with an email and a password. */
module EmailAuth {
  import opened Common
  import opened Strings
  import opened AuthMessages

  const AuthFailedFallback := "Authentication failed"
  const InvalidCredentials := "Invalid email or password."

  const EmailInUse := "auth/email-already-in-use"
  const InvalidEmail := "auth/invalid-email"
  const WeakPassword := "auth/weak-password"
  const UserNotFound := "auth/user-not-found"
  const WrongPassword := "auth/wrong-password"
  const InvalidCredential := "auth/invalid-credential"

  /** handleSubmit's error chain, in order. */
  const EmailRules: seq<Rule> := [
    Rule([EmailInUse], "An account with this email already exists."),
    Rule([InvalidEmail], "Please enter a valid email address."),
    Rule([WeakPassword], "Password should be at least 6 characters."),
    Rule([UserNotFound, WrongPassword], InvalidCredentials),
    Rule([InvalidCredential], InvalidCredentials)
  ]

  /** The text shown when signing in or up throws `e`. */
  function ErrorText(e: Thrown): string
  {
    Friendly(MessageOr(e, AuthFailedFallback), EmailRules)
  }

  /** Whichever of the three credential codes a message carries, the user sees
      the same text, so the form does not reveal whether the account exists;
      the codes tested earlier in the chain take precedence. */
  lemma CredentialErrorsShareText(message: string)
    requires !Contains(message, EmailInUse) && !Contains(message, InvalidEmail)
    requires !Contains(message, WeakPassword)
    requires Contains(message, UserNotFound) || Contains(message, WrongPassword)
             || Contains(message, InvalidCredential)
    ensures Friendly(message, EmailRules) == InvalidCredentials
  {
    assert !Matches(message, EmailRules[0]) && !Matches(message, EmailRules[1]) && !Matches(message, EmailRules[2]);
    if Contains(message, UserNotFound) || Contains(message, WrongPassword) {
      assert EmailRules[3].codes[0] == UserNotFound && EmailRules[3].codes[1] == WrongPassword;
      FirstMatchWins(message, EmailRules, 3);
    } else {
      assert EmailRules[4].codes[0] == InvalidCredential;
      FirstMatchWins(message, EmailRules, 4);
    }
  }

  /** A message carrying none of the codes is shown as it is. */
  lemma UnknownErrorShownRaw(message: string)
    requires !Contains(message, EmailInUse) && !Contains(message, InvalidEmail)
    requires !Contains(message, WeakPassword) && !Contains(message, UserNotFound)
    requires !Contains(message, WrongPassword) && !Contains(message, InvalidCredential)
    ensures Friendly(message, EmailRules) == message
  {
    assert !Matches(message, EmailRules[0]) && !Matches(message, EmailRules[1]);
    assert !Matches(message, EmailRules[2]);
    assert EmailRules[3].codes == [UserNotFound, WrongPassword];
    assert !Matches(message, EmailRules[3]) && !Matches(message, EmailRules[4]);
    forall i | 0 <= i < |EmailRules| ensures !Matches(message, EmailRules[i]) {
      assert i == 0 || i == 1 || i == 2 || i == 3 || i == 4;
    }
  }

  /** Which Firebase call a submit makes. */
  datatype Request = SignUp(email: string, password: string) | SignIn(email: string, password: string)

  class EmailForm {
    var isSignUp: bool
    var email: string
    var password: string
    var loading: bool
    var error: Option<string>
    /** The requests sent, oldest first. */
    var requests: seq<Request>
    /** How many times `onSuccess` was called. */
    var successes: nat

    constructor()
      ensures !isSignUp && email == "" && password == "" && !loading && error.None?
      ensures requests == [] && successes == 0
    {
      isSignUp := false;
      email, password := "", "";
      loading := false;
      error := None;
      requests := [];
      successes := 0;
    }

    /** handleSubmit: signs up or in according to the mode; success reports
        to the caller, failure shows the chain's text; loading ends either way.
        `failure` is how the request went (None when it succeeded). */
    method HandleSubmit(failure: Option<Thrown>)
      modifies this
      ensures requests == old(requests) + [if isSignUp then SignUp(email, password) else SignIn(email, password)]
      ensures failure.None? ==> error.None? && successes == old(successes) + 1
      ensures failure.Some? ==> error == Some(ErrorText(failure.value)) && successes == old(successes)
      ensures !loading
      ensures isSignUp == old(isSignUp) && email == old(email) && password == old(password)
    {
      loading := true;
      error := None;
      if isSignUp {
        requests := requests + [SignUp(email, password)];
      } else {
        requests := requests + [SignIn(email, password)];
      }
      if failure.None? {
        successes := successes + 1;
      } else {
        error := Some(ErrorText(failure.value));
      }
      loading := false;
    }

    /** The link under the form: switches between signing in and signing up
        and clears the error. */
    method ToggleMode()
      modifies this
      ensures isSignUp == !old(isSignUp) && error.None?
      ensures email == old(email) && password == old(password) && loading == old(loading)
      ensures requests == old(requests) && successes == old(successes)
    {
      isSignUp := !isSignUp;
      error := None;
    }
  }
}
