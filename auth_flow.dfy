/** What the sign-in and sign-up pages share: the signed-in user the
    authentication context exposes, the provider calls the pages make, and the
    log of state updates and effects a handler performs, in order. Replaying a
    log from a page's `(error, loading)` view gives the view afterwards. */
module AuthFlow {
  import opened Common

  /** The authentication context's user (a Firebase-style user record). */
  datatype AuthUser = AuthUser(uid: string, displayName: Option<string>, email: Option<string>, photoUrl: Option<string>)

  datatype ProviderCall =
    | GoogleSignIn
    | EmailSignIn(email: string, password: string)
    | EmailSignUp(email: string, password: string)

  /** How an awaited provider call ended: it resolved, or it threw an error
      whose `message` may be missing or empty. */
  datatype Outcome = Succeeded | Failed(message: Option<string>)

  /** One step of a handler: a state setter, the provider call, a navigation. */
  datatype Event =
    | SetError(text: string)
    | SetLoading(on: bool)
    | CallProvider(call: ProviderCall)
    | Navigate(path: string)

  /** The part of a page's state the handlers update. */
  datatype View = View(error: string, loading: bool)

  const PlaygroundPath: string := "/playground"

  function Step(v: View, e: Event): View {
    match e
    case SetError(t) => v.(error := t)
    case SetLoading(b) => v.(loading := b)
    case _ => v
  }

  /** The view after the events of `evs`, in order. */
  function Apply(v: View, evs: seq<Event>): View
    decreases |evs|
  {
    if evs == [] then v else Step(Apply(v, evs[..|evs| - 1]), evs[|evs| - 1])
  }

  /** The paths navigated to, in order. */
  function Navigations(evs: seq<Event>): (r: seq<string>)
    ensures |r| <= |evs|
  {
    if evs == [] then []
    else Navigations(evs[..|evs| - 1]) + (if evs[|evs| - 1].Navigate? then [evs[|evs| - 1].path] else [])
  }

  predicate CallsProvider(evs: seq<Event>) {
    exists i :: 0 <= i < |evs| && evs[i].CallProvider?
  }

  /** `error.message || fallback`. */
  function FailureText(message: Option<string>, fallback: string): string {
    if Truthy(message) then message.value else fallback
  }

  /** The try/catch/finally every handler runs once validation has passed:
      clear the error, raise `loading`, await the provider, navigate to the
      playground on success or show the error on failure, then lower
      `loading`. */
  function AttemptEvents(call: ProviderCall, outcome: Outcome, fallback: string): seq<Event> {
    [SetError(""), SetLoading(true), CallProvider(call)]
    + (match outcome
       case Succeeded => [Navigate(PlaygroundPath)]
       case Failed(message) => [SetError(FailureText(message, fallback))])
    + [SetLoading(false)]
  }

  /** An attempt calls the provider with the error cleared and `loading` up;
      it ends with `loading` down, navigates to the playground exactly when
      the call succeeded, and otherwise shows the thrown message or the
      fallback text. */
  lemma AttemptSettles(v: View, call: ProviderCall, outcome: Outcome, fallback: string)
    ensures var evs := AttemptEvents(call, outcome, fallback);
      && |evs| == 5
      && evs[2] == CallProvider(call)
      && Apply(v, evs[..2]) == View("", true)
      && Apply(v, evs) == View(if outcome.Succeeded? then "" else FailureText(outcome.message, fallback), false)
      && Navigations(evs) == (if outcome.Succeeded? then [PlaygroundPath] else [])
      && CallsProvider(evs)
  {
    var evs := AttemptEvents(call, outcome, fallback);
    var e3 := if outcome.Succeeded? then Navigate(PlaygroundPath) else SetError(FailureText(outcome.message, fallback));
    assert evs == [SetError(""), SetLoading(true), CallProvider(call), e3, SetLoading(false)];
    assert evs[..1] == [SetError("")] && evs[..1][..0] == [];
    assert evs[..2][..1] == evs[..1];
    assert evs[..3][..2] == evs[..2];
    assert evs[..4][..3] == evs[..3];
    assert evs[..4] == evs[..|evs| - 1];
    assert Apply(v, evs[..2]) == View("", true);
    assert Apply(v, evs[..3]) == View("", true);
    assert Apply(v, evs[..4]) == View(if outcome.Succeeded? then "" else FailureText(outcome.message, fallback), true);
    assert Navigations(evs[..1]) == [];
    assert Navigations(evs[..2]) == [];
    assert Navigations(evs[..3]) == [];
    assert Navigations(evs[..4]) == (if outcome.Succeeded? then [PlaygroundPath] else []);
  }

  lemma ApplySingle(v: View, e: Event)
    ensures Apply(v, [e]) == Step(v, e)
  {
    assert [e][..0] == [];
  }

  /** The `error` and `loading` state of a sign-in or sign-up page, with the
      log of every setter call, provider call and navigation it has made. */
  class FormState {
    var error: string
    var loading: bool
    var log: seq<Event>

    function Current(): View
      reads this
    {
      View(error, loading)
    }

    /** `useState('')` and `useState(false)`. */
    constructor ()
      ensures error == "" && !loading && log == []
    {
      error, loading, log := "", false, [];
    }

    /** Performs one step: a setter updates its state variable, a provider
        call or a navigation only leaves its mark in the log. */
    method Perform(e: Event)
      modifies this
      ensures log == old(log) + [e]
      ensures Current() == Step(old(Current()), e)
    {
      match e {
        case SetError(t) => error := t;
        case SetLoading(b) => loading := b;
        case _ =>
      }
      log := log + [e];
    }
  }

  /** The shared try/catch/finally, run step by step against a page's state. */
  method Attempt(form: FormState, call: ProviderCall, outcome: Outcome, fallback: string)
    modifies form
    ensures form.log == old(form.log) + AttemptEvents(call, outcome, fallback)
    ensures form.Current() == Apply(old(form.Current()), AttemptEvents(call, outcome, fallback))
  {
    ghost var v0 := form.Current();
    AttemptSettles(v0, call, outcome, fallback);
    var settled := if outcome.Succeeded? then Navigate(PlaygroundPath) else SetError(FailureText(outcome.message, fallback));
    assert AttemptEvents(call, outcome, fallback)
      == [SetError(""), SetLoading(true), CallProvider(call), settled, SetLoading(false)];
    form.Perform(SetError(""));
    form.Perform(SetLoading(true));
    form.Perform(CallProvider(call));
    form.Perform(settled);
    form.Perform(SetLoading(false));
  }
}
