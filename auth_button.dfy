/** The account button of the navigation bar
    (`frontend/src/components/AuthButton.tsx`): a sign-in button for visitors;
    for a signed-in user a label, and a dropdown with a sign-out action that
    opens and closes. */
module AuthButton {
  import opened Common
  import opened AuthFlow

  const HomePath: string := "/"
  const SignInPath: string := "/signin"

  /** `s.split('@')[0]`: everything before the first '@'. */
  function BeforeAt(s: string): (r: string)
    ensures |r| <= |s| && r == s[..|r|]
    ensures '@' !in r
    ensures |r| < |s| ==> s[|r|] == '@'
  {
    if s == [] || s[0] == '@' then [] else [s[0]] + BeforeAt(s[1..])
  }

  /** `user.displayName || user.email?.split('@')[0]`; a user with neither
      shows nothing, written here as "". */
  function Label(user: AuthUser): (r: string)
    ensures Truthy(user.displayName) ==> r == user.displayName.value
    ensures !Truthy(user.displayName) && user.email.Some? ==> r == BeforeAt(user.email.value)
    ensures !Truthy(user.displayName) && user.email.None? ==> r == ""
  {
    if Truthy(user.displayName) then user.displayName.value
    else if user.email.Some? then BeforeAt(user.email.value)
    else ""
  }

  /** For an e-mail with an '@' the label falls back to exactly its local
      part: `email == label + "@" + rest`. */
  lemma LabelIsLocalPart(user: AuthUser)
    requires !Truthy(user.displayName) && user.email.Some? && '@' in user.email.value
    ensures var e, l := user.email.value, Label(user);
      |l| < |e| && e == l + "@" + e[|l| + 1..]
  {
    var e, l := user.email.value, Label(user);
    assert e == e[..|l|] + [e[|l|]] + e[|l| + 1..];
  }

  datatype ButtonView = SignInButton | AccountMenu(caption: string, dropdown: bool)

  /** What the component renders for a user and the `isOpen` state. */
  function Render(user: Option<AuthUser>, isOpen: bool): (v: ButtonView)
    ensures user.None? <==> v == SignInButton
    ensures user.Some? ==> v.caption == Label(user.value) && (v.dropdown <==> isOpen)
  {
    if user.None? then SignInButton else AccountMenu(Label(user.value), isOpen)
  }

  class AuthButtonState {
    var isOpen: bool
    var navigations: seq<string>

    /** `useState(false)`. */
    constructor ()
      ensures !isOpen && navigations == []
    {
      isOpen, navigations := false, [];
    }

    /** The visitor's Sign In button. */
    method ClickSignIn()
      modifies this`navigations
      ensures navigations == old(navigations) + [SignInPath]
    {
      navigations := navigations + [SignInPath];
    }

    /** The account button: `setIsOpen(!isOpen)`. */
    method ClickToggle()
      modifies this`isOpen
      ensures isOpen == !old(isOpen)
    {
      isOpen := !isOpen;
    }

    /** The backdrop behind the open dropdown: `setIsOpen(false)`. */
    method ClickBackdrop()
      modifies this`isOpen
      ensures !isOpen
    {
      isOpen := false;
    }

    /** `handleSignOut`: navigate home only when `logout` resolved; a failure
        is only logged. */
    method SignOut(outcome: Outcome)
      modifies this`navigations
      ensures navigations == old(navigations) + (if outcome.Succeeded? then [HomePath] else [])
    {
      if outcome.Succeeded? {
        navigations := navigations + [HomePath];
      }
    }
  }

  /** Two clicks on the account button restore the dropdown's state. */
  method ToggleTwice(b: AuthButtonState)
    modifies b
    ensures b.isOpen == old(b.isOpen) && b.navigations == old(b.navigations)
  {
    b.ClickToggle();
    b.ClickToggle();
  }

  /** Clicking the backdrop again changes nothing. */
  method BackdropTwice(b: AuthButtonState)
    modifies b
    ensures !b.isOpen && b.navigations == old(b.navigations)
  {
    b.ClickBackdrop();
    ghost var once := b.isOpen;
    b.ClickBackdrop();
    assert b.isOpen == once;
  }
}
