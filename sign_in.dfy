/** The sign-in page (`frontend/src/pages/SignIn.tsx`): the Google button and
    the e-mail form. Neither handler validates anything before calling the
    provider. */
module SignIn {
  import opened Common
  import opened AuthFlow

  const GoogleFallback: string := "Failed to sign in with Google"
  const EmailFallback: string := "Failed to sign in"

  /** Whatever the e-mail and password, the form calls `signInWithEmail` with
      them, with the error cleared and `loading` up; it navigates only on
      success, shows the message or "Failed to sign in" on failure, and ends
      with `loading` down. */
  lemma EmailSignInRules(v: View, email: string, password: string, outcome: Outcome)
    ensures var evs := AttemptEvents(EmailSignIn(email, password), outcome, EmailFallback);
      && evs[..2] == [SetError(""), SetLoading(true)]
      && evs[2] == CallProvider(EmailSignIn(email, password))
      && Apply(v, evs[..2]) == View("", true)
      && Apply(v, evs) == View(if outcome.Succeeded? then "" else FailureText(outcome.message, EmailFallback), false)
      && Navigations(evs) == (if outcome.Succeeded? then [PlaygroundPath] else [])
  {
    AttemptSettles(v, EmailSignIn(email, password), outcome, EmailFallback);
  }

  /** The same for the Google button, with "Failed to sign in with Google". */
  lemma GoogleSignInRules(v: View, outcome: Outcome)
    ensures var evs := AttemptEvents(GoogleSignIn, outcome, GoogleFallback);
      && evs[2] == CallProvider(GoogleSignIn)
      && Apply(v, evs[..2]) == View("", true)
      && Apply(v, evs) == View(if outcome.Succeeded? then "" else FailureText(outcome.message, GoogleFallback), false)
      && Navigations(evs) == (if outcome.Succeeded? then [PlaygroundPath] else [])
  {
    AttemptSettles(v, GoogleSignIn, outcome, GoogleFallback);
  }

  class SignInPage {
    var email: string
    var password: string
    const form: FormState

    constructor ()
      ensures email == "" && password == ""
      ensures fresh(form) && form.error == "" && !form.loading && form.log == []
    {
      email, password := "", "";
      form := new FormState();
    }

    method EnterEmail(s: string)
      modifies this`email
      ensures email == s
    {
      email := s;
    }

    method EnterPassword(s: string)
      modifies this`password
      ensures password == s
    {
      password := s;
    }

    /** `handleGoogleSignIn`. */
    method HandleGoogleSignIn(outcome: Outcome)
      modifies form
      ensures form.log == old(form.log) + AttemptEvents(GoogleSignIn, outcome, GoogleFallback)
      ensures form.Current() == Apply(old(form.Current()), AttemptEvents(GoogleSignIn, outcome, GoogleFallback))
    {
      Attempt(form, GoogleSignIn, outcome, GoogleFallback);
    }

    /** `handleEmailSignIn`. */
    method HandleEmailSignIn(outcome: Outcome)
      modifies form
      ensures form.log == old(form.log) + AttemptEvents(EmailSignIn(email, password), outcome, EmailFallback)
      ensures form.Current() == Apply(old(form.Current()), AttemptEvents(EmailSignIn(email, password), outcome, EmailFallback))
    {
      Attempt(form, EmailSignIn(email, password), outcome, EmailFallback);
    }
  }
}
