/** The route guard (`frontend/src/components/ProtectedRoute.tsx`) and the one
    route of the app it wraps (`/playground` in `frontend/src/App.tsx`). */
module ProtectedRoute {
  import opened Common
  import opened AuthFlow

  /** What the guard renders. */
  datatype Element<C> = Spinner | Redirect(to: string, replace: bool) | Children(content: C)

  const SignInPath: string := "/signin"

  /** `ProtectedRoute`: a spinner while the auth state is loading, a
      replacing redirect to the sign-in page when nobody is signed in, and the
      children unchanged otherwise. */
  function Guard<C>(loading: bool, user: Option<AuthUser>, children: C): (e: Element<C>)
    ensures loading ==> e == Spinner
    ensures !loading && user.None? ==> e == Redirect(SignInPath, true)
    ensures !loading && user.Some? ==> e == Children(children)
  {
    if loading then Spinner
    else if user.None? then Redirect(SignInPath, true)
    else Children(children)
  }

  datatype Page = PlaygroundPage

  /** The element the router renders for `/playground`. */
  function PlaygroundRoute(loading: bool, user: Option<AuthUser>): Element<Page> {
    Guard(loading, user, PlaygroundPage)
  }

  /** The playground page appears exactly when loading is over and a user is
      signed in. */
  lemma PlaygroundNeedsUser(loading: bool, user: Option<AuthUser>)
    ensures PlaygroundRoute(loading, user) == Children(PlaygroundPage) <==> !loading && user.Some?
  {
  }
}
