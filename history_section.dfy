/** The history section of the landing page
    (`frontend/src/components/landing/HistorySection.tsx`): it fetches the
    history whenever the signed-in user's id changes, keeps the loading flag,
    the error and the last list it received, and decides from them which
    panels to show. */
module HistorySection {
  import opened Common
  import opened AuthFlow
  import Api

  const LoadError: string := "Unable to load history. Please try again later."

  /** Everything `getHistory` depends on beyond the user id. */
  datatype HistoryWorld = HistoryWorld(
    base: string, clock: Api.Clock,
    primary: Api.HttpOutcome<seq<Api.HistoryItem>>,
    legacy: Api.HttpOutcome<seq<Api.LegacyConversation>>)

  /** One step of `fetchHistory`. */
  datatype SectionEvent =
    | SetIsLoading(on: bool)
    | SetSectionError(error: Option<string>)
    | CallGetHistory(uid: Option<string>)
    | SetHistory(items: seq<Api.HistoryItem>)

  /** `user?.uid`. */
  function Uid(user: Option<AuthUser>): Option<string> {
    if user.Some? then Some(user.value.uid) else None
  }

  /** `getHistory(user?.uid)` in the given world. */
  function Fetched(user: Option<AuthUser>, w: HistoryWorld): Api.Promise<seq<Api.HistoryItem>> {
    Api.GetHistory(w.base, w.clock, Uid(user), w.primary, w.legacy).result
  }

  /** The steps of `fetchHistory`. */
  function FetchEvents(uid: Option<string>, settled: Api.Promise<seq<Api.HistoryItem>>): seq<SectionEvent> {
    [SetIsLoading(true), SetSectionError(None), CallGetHistory(uid)]
    + (match settled
       case Resolved(items) => [SetHistory(items)]
       case Rejected(_) => [SetSectionError(Some(LoadError))])
    + [SetIsLoading(false)]
  }

  // ---------------------------------------------------------------------------
  // What is rendered

  /** `isAuthenticated ? 'Your History & ' : 'Example '`. */
  function HeadingPrefix(isAuthenticated: bool): (r: string)
    ensures (r == "Your History & ") == isAuthenticated
    ensures !isAuthenticated ==> r == "Example "
  {
    if isAuthenticated then "Your History & " else "Example "
  }

  predicate ShowsBadge(isAuthenticated: bool, history: seq<Api.HistoryItem>) {
    !isAuthenticated && |history| > 0
  }

  predicate ShowsErrorBanner(error: Option<string>) {
    Truthy(error)
  }

  predicate ShowsSpinner(isLoading: bool) {
    isLoading
  }

  predicate ShowsEmptyState(isAuthenticated: bool, isLoading: bool, error: Option<string>, history: seq<Api.HistoryItem>) {
    !isLoading && !Truthy(error) && |history| == 0 && isAuthenticated
  }

  predicate ShowsList(isLoading: bool, error: Option<string>, history: seq<Api.HistoryItem>) {
    !isLoading && !Truthy(error) && |history| > 0
  }

  /** The empty state and the list never show together, both wait for loading
      to end without an error, and the empty state is for signed-in users only. */
  lemma PanelsExclusive(isAuthenticated: bool, isLoading: bool, error: Option<string>, history: seq<Api.HistoryItem>)
    ensures !(ShowsEmptyState(isAuthenticated, isLoading, error, history) && ShowsList(isLoading, error, history))
    ensures ShowsEmptyState(isAuthenticated, isLoading, error, history) ==> !isLoading && !Truthy(error) && isAuthenticated
    ensures ShowsList(isLoading, error, history) ==> !isLoading && !Truthy(error)
    ensures ShowsSpinner(isLoading) ==> !ShowsEmptyState(isAuthenticated, isLoading, error, history) && !ShowsList(isLoading, error, history)
  {
  }

  /** An anonymous visitor's fetch resolves to the four demo items, so once
      it is done the list and the "Example debates" badge are shown and the
      heading reads "Example ". */
  lemma AnonymousVisitorSeesExamples(w: HistoryWorld)
    ensures Fetched(None, w).Resolved?
    ensures var items := Fetched(None, w).value;
      |items| == 4 && ShowsList(false, None, items) && ShowsBadge(false, items) && HeadingPrefix(false) == "Example "
  {
  }

  /** The section shows its error only for a signed-in user whose primary
      history response was a 2xx with a body that did not parse. */
  lemma ErrorOnlyFromUnparsedPrimaryBody(user: Option<AuthUser>, w: HistoryWorld)
    ensures Fetched(user, w).Rejected? <==>
      user.Some? && user.value.uid != "" && w.primary.Ok? && w.primary.body.Malformed?
  {
  }

  class HistorySectionState {
    var history: seq<Api.HistoryItem>
    var isLoading: bool
    var error: Option<string>
    /** The `user?.uid` the effect last ran for; None before the first run. */
    var effectUid: Option<Option<string>>
    var log: seq<SectionEvent>

    /** `useState([])`, `useState(true)`, `useState(null)`. */
    constructor ()
      ensures history == [] && isLoading && error == None && effectUid == None && log == []
    {
      history, isLoading, error, effectUid, log := [], true, None, None, [];
    }

    /** `fetchHistory`: raise the loading flag and clear the error, await
        `getHistory(user?.uid)`, keep the data or, if it throws, show the fixed
        message and keep the old list; the loading flag always ends down. */
    method FetchHistory(user: Option<AuthUser>, w: HistoryWorld)
      modifies this`history, this`isLoading, this`error, this`log
      ensures log == old(log) + FetchEvents(Uid(user), Fetched(user, w))
      ensures !isLoading
      ensures Fetched(user, w).Resolved? ==> history == Fetched(user, w).value && error == None
      ensures Fetched(user, w).Rejected? ==> history == old(history) && error == Some(LoadError)
      ensures ShowsErrorBanner(error) <==> Fetched(user, w).Rejected?
    {
      isLoading := true;
      log := log + [SetIsLoading(true)];
      error := None;
      log := log + [SetSectionError(None)];
      var settled := Fetched(user, w);
      log := log + [CallGetHistory(Uid(user))];
      match settled {
        case Resolved(data) =>
          history := data;
          log := log + [SetHistory(data)];
        case Rejected(_) =>
          error := Some(LoadError);
          log := log + [SetSectionError(Some(LoadError))];
      }
      isLoading := false;
      log := log + [SetIsLoading(false)];
    }

    /** The `useEffect` keyed on `user?.uid`, run after a render: it
        fetches on the first render and whenever the id differs from the last
        one, and does nothing otherwise. */
    method AfterRender(user: Option<AuthUser>, w: HistoryWorld)
      modifies this
      ensures effectUid == Some(Uid(user))
      ensures old(effectUid) == Some(Uid(user)) ==>
        history == old(history) && isLoading == old(isLoading) && error == old(error) && log == old(log)
      ensures old(effectUid) != Some(Uid(user)) ==>
        log == old(log) + FetchEvents(Uid(user), Fetched(user, w)) && !isLoading
      ensures old(effectUid) != Some(Uid(user)) && Fetched(user, w).Resolved? ==>
        history == Fetched(user, w).value && error == None
      ensures old(effectUid) != Some(Uid(user)) && Fetched(user, w).Rejected? ==>
        history == old(history) && error == Some(LoadError)
    {
      if effectUid != Some(Uid(user)) {
        effectUid := Some(Uid(user));
        FetchHistory(user, w);
      }
    }
  }
}
