/** The sign-up page (`frontend/src/pages/SignUp.tsx`): the Google sign-up
    button and the e-mail form, whose handler checks the two passwords before
    asking the provider to create the account. */
module SignUp {
  import opened Common
  import opened AuthFlow

  const MismatchError: string := "Passwords do not match"
  const ShortPasswordError: string := "Password must be at least 6 characters"
  const MinPasswordLength: nat := 6
  const GoogleFallback: string := "Failed to sign up with Google"
  const EmailFallback: string := "Failed to create account"

  /** What `handleEmailSignUp` does: a mismatch, then a short password, stop
      it with an error; otherwise it runs the sign-up attempt. */
  function EmailSignUpEvents(email: string, password: string, confirm: string, outcome: Outcome): seq<Event> {
    if password != confirm then [SetError(MismatchError)]
    else if |password| < MinPasswordLength then [SetError(ShortPasswordError)]
    else AttemptEvents(EmailSignUp(email, password), outcome, EmailFallback)
  }

  /** The validation order and its effects: a rejected form shows its error,
      leaves `loading` alone, calls no provider and goes nowhere (a mismatch
      wins over a short password); an accepted form (six characters are
      enough) calls `signUpWithEmail` with the error cleared and `loading`
      up, and always ends with `loading` down. */
  lemma EmailSignUpRules(v: View, email: string, password: string, confirm: string, outcome: Outcome)
    ensures var evs := EmailSignUpEvents(email, password, confirm, outcome);
      password != confirm ==>
        Apply(v, evs) == v.(error := MismatchError) && !CallsProvider(evs) && Navigations(evs) == []
    ensures var evs := EmailSignUpEvents(email, password, confirm, outcome);
      password == confirm && |password| < MinPasswordLength ==>
        Apply(v, evs) == v.(error := ShortPasswordError) && !CallsProvider(evs) && Navigations(evs) == []
    ensures var evs := EmailSignUpEvents(email, password, confirm, outcome);
      password == confirm && |password| >= MinPasswordLength ==>
        && evs[2] == CallProvider(EmailSignUp(email, password))
        && Apply(v, evs[..2]) == View("", true)
        && Apply(v, evs) == View(if outcome.Succeeded? then "" else FailureText(outcome.message, EmailFallback), false)
        && Navigations(evs) == (if outcome.Succeeded? then [PlaygroundPath] else [])
  {
    var evs := EmailSignUpEvents(email, password, confirm, outcome);
    if password != confirm || |password| < MinPasswordLength {
      ApplySingle(v, evs[0]);
      assert evs[..0] == [];
    } else {
      AttemptSettles(v, EmailSignUp(email, password), outcome, EmailFallback);
    }
  }

  /** The Google button does no validation: it is the attempt alone. */
  lemma GoogleSignUpRules(v: View, outcome: Outcome)
    ensures var evs := AttemptEvents(GoogleSignIn, outcome, GoogleFallback);
      && evs[2] == CallProvider(GoogleSignIn)
      && Apply(v, evs[..2]) == View("", true)
      && Apply(v, evs) == View(if outcome.Succeeded? then "" else FailureText(outcome.message, GoogleFallback), false)
      && Navigations(evs) == (if outcome.Succeeded? then [PlaygroundPath] else [])
  {
    AttemptSettles(v, GoogleSignIn, outcome, GoogleFallback);
  }

  class SignUpPage {
    var email: string
    var password: string
    var confirmPassword: string
    const form: FormState

    constructor ()
      ensures email == "" && password == "" && confirmPassword == ""
      ensures fresh(form) && form.error == "" && !form.loading && form.log == []
    {
      email, password, confirmPassword := "", "", "";
      form := new FormState();
    }

    method EnterEmail(s: string)
      modifies this`email
      ensures email == s
    {
      email := s;
    }

    method EnterPassword(s: string)
      modifies this`password
      ensures password == s
    {
      password := s;
    }

    method EnterConfirmPassword(s: string)
      modifies this`confirmPassword
      ensures confirmPassword == s
    {
      confirmPassword := s;
    }

    /** `handleGoogleSignUp`. */
    method HandleGoogleSignUp(outcome: Outcome)
      modifies form
      ensures form.log == old(form.log) + AttemptEvents(GoogleSignIn, outcome, GoogleFallback)
      ensures form.Current() == Apply(old(form.Current()), AttemptEvents(GoogleSignIn, outcome, GoogleFallback))
    {
      Attempt(form, GoogleSignIn, outcome, GoogleFallback);
    }

    /** `handleEmailSignUp`, with the provider's outcome as input. */
    method HandleEmailSignUp(outcome: Outcome)
      modifies form
      ensures form.log == old(form.log) + EmailSignUpEvents(email, password, confirmPassword, outcome)
      ensures form.Current() == Apply(old(form.Current()), EmailSignUpEvents(email, password, confirmPassword, outcome))
    {
      if password != confirmPassword {
        ApplySingle(form.Current(), SetError(MismatchError));
        form.Perform(SetError(MismatchError));
        return;
      }
      if |password| < MinPasswordLength {
        ApplySingle(form.Current(), SetError(ShortPasswordError));
        form.Perform(SetError(ShortPasswordError));
        return;
      }
      Attempt(form, EmailSignUp(email, password), outcome, EmailFallback);
    }
  }
}
