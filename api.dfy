/** The history/answer client of the front end (`frontend/src/lib/api.ts`).
    Every network round trip is an input: the outcome the transport delivered
    for each request. Each operation returns the requests it issued together
    with how its promise settles, so "no network call" and "no retry" are
    statements about that list. */
module Api {
  import opened Common

  datatype Agent = AgentA | AgentB

  datatype Scores = Scores(correctness: int, clarity: int, usefulness: int)

  datatype Referee = Referee(scores: Scores, critique: string, chosenAgent: Agent)

  /** One judged question/answer turn; `humanLabel` is the feedback label, if any. */
  datatype HistoryItem = HistoryItem(
    turnId: int,
    question: string,
    chosenAgent: Agent,
    enhancedAnswer: string,
    referee: Referee,
    createdAt: string,
    humanLabel: Option<string>)

  /** A record of the legacy `/api/conversations` listing: only its title and
      creation time are read. */
  datatype LegacyConversation = LegacyConversation(title: Option<string>, createdAt: string)

  /** What `response.json()` gives: the decoded value, or a parse failure. */
  datatype Body<+T> = Parsed(value: T) | Malformed(reason: string)

  /** What `fetch` delivered: a 2xx response, another status with its body
      text, or a rejection (network failure). */
  datatype HttpOutcome<+T> = Ok(body: Body<T>) | NotOk(status: nat, text: string) | Throws(reason: string)

  /** How the promise returned by an operation settles. */
  datatype Promise<+T> = Resolved(value: T) | Rejected(reason: string)

  datatype HttpMethod = Get | Post

  datatype Payload = AskPayload(question: string, userId: Option<string>) | FeedbackPayload(turnId: int, feedbackLabel: string)

  datatype Request = Request(verb: HttpMethod, url: string, payload: Option<Payload>)

  /** The requests an operation issued, in order, and how it settled. */
  datatype Call<+T> = Call(requests: seq<Request>, result: Promise<T>)

  /** The wall clock: `Date.now()` in milliseconds and `toISOString`. */
  datatype Clock = Clock(nowMs: int, toIso: int -> string)

  const DefaultBaseUrl: string := "http://localhost:8002"
  const MsPerDay: int := 24 * 60 * 60 * 1000
  const LegacyCritique: string := "History details unavailable in this build."

  /** `VITE_API_BASE_URL || 'http://localhost:8002'`. */
  function BaseUrl(configured: Option<string>): (r: string)
    ensures Truthy(configured) ==> r == configured.value
    ensures !Truthy(configured) ==> r == DefaultBaseUrl
  {
    if Truthy(configured) then configured.value else DefaultBaseUrl
  }

  function AskUrl(base: string): string { base + "/api/ask" }
  function HistoryUrl(base: string, userId: string): string { base + "/api/history?user_id=" + userId }
  function LegacyUrl(base: string): string { base + "/api/conversations" }
  function FeedbackUrl(base: string): string { base + "/api/feedback" }

  /** The message of the error thrown on a non-2xx response. */
  function ApiErrorMessage(status: nat, text: string): string {
    "API error: " + ShowNat(status) + " - " + text
  }

  /** The message determines both the status and the body text it was built
      from, so a caller can recover the status code from the error. */
  lemma ApiErrorMessageInjective(s1: nat, t1: string, s2: nat, t2: string)
    requires ApiErrorMessage(s1, t1) == ApiErrorMessage(s2, t2)
    ensures s1 == s2 && t1 == t2
  {
    var m := ApiErrorMessage(s1, t1);
    var d1, d2 := ShowNat(s1), ShowNat(s2);
    var p := |"API error: "|;
    assert m == "API error: " + d1 + " - " + t1;
    assert m == "API error: " + d2 + " - " + t2;
    // The digits end where " - " starts, so both renderings have one length.
    // Each rendering is a run of digits ending where " - " starts.
    assert forall k :: p <= k < p + |d1| ==> IsDigit(m[k]);
    assert !IsDigit(m[p + |d1|]);
    assert forall k :: p <= k < p + |d2| ==> IsDigit(m[k]);
    assert !IsDigit(m[p + |d2|]);
    assert d1 == m[p..p + |d1|] == d2;
    ShowNatInjective(s1, s2);
    assert t1 == m[p + |d1| + 3..] == t2;
  }

  predicate Consistent(item: HistoryItem) {
    item.referee.chosenAgent == item.chosenAgent
  }

  predicate ScoresInRange(s: Scores) {
    0 <= s.correctness <= 10 && 0 <= s.clarity <= 10 && 0 <= s.usefulness <= 10
  }

  predicate AllConsistent(items: seq<HistoryItem>) {
    forall i :: 0 <= i < |items| ==> Consistent(items[i])
  }

  predicate DistinctTurnIds(items: seq<HistoryItem>) {
    forall i, j :: 0 <= i < j < |items| ==> items[i].turnId != items[j].turnId
  }

  function DaysAgo(clock: Clock, days: int): string {
    clock.toIso(clock.nowMs - days * MsPerDay)
  }

  /** One item of the example dataset: created `days` days before now, with the
      referee's choice equal to the item's, and no human label. */
  function DemoItem(clock: Clock, turnId: int, days: int, agent: Agent, scores: Scores,
                    question: string, answer: string, critique: string): HistoryItem
  {
    HistoryItem(turnId, question, agent, answer, Referee(scores, critique, agent), DaysAgo(clock, days), None)
  }

  /** The fixed example dataset shown to anonymous visitors. */
  function DummyHistory(clock: Clock): (r: seq<HistoryItem>)
    ensures |r| == 4
    ensures forall i :: 0 <= i < |r| ==> r[i].turnId == i + 1
    ensures DistinctTurnIds(r)
    ensures AllConsistent(r)
    ensures forall i :: 0 <= i < |r| ==> ScoresInRange(r[i].referee.scores)
    ensures forall i :: 0 <= i < |r| ==> r[i].humanLabel == None
    ensures StartsWith(r[0].question, "What are the key differences between React and Vue.js")
  {
    [
      DemoItem(clock, 1, 2, AgentA, Scores(9, 9, 9),
        DemoQuestion1,
        DemoAnswer1,
        DemoCritique1),
      DemoItem(clock, 2, 5, AgentB, Scores(9, 10, 9),
        DemoQuestion2,
        DemoAnswer2,
        DemoCritique2),
      DemoItem(clock, 3, 7, AgentA, Scores(10, 8, 10),
        DemoQuestion3,
        DemoAnswer3,
        DemoCritique3),
      DemoItem(clock, 4, 10, AgentB, Scores(9, 9, 8),
        DemoQuestion4,
        DemoAnswer4,
        DemoCritique4)
    ]
  }

  const DemoQuestion1: string :=
    "What are the key differences between React and Vue.js" + " for building modern web applications?"
  const DemoAnswer1: string :=
    "React and Vue.js are both powerful JavaScript frameworks, but they differ in several key aspects. React uses a virtual DOM and JSX syntax, offering more flexibility and a larger ecosystem. Vue.js provides a more opinionated structure with its template syntax, making it easier for beginners. React is maintained by Meta and has stronger corporate backing, while Vue is community-driven. For large-scale applications, React's component architecture and state management solutions like Redux are widely adopted. Vue's progressive framework approach allows gradual adoption. Both support TypeScript, but React has more mature TypeScript integration."
  const DemoCritique1: string :=
    "Agent A provided a comprehensive and balanced comparison covering architecture, syntax, ecosystem, and use cases. The response accurately highlights the strengths of both frameworks without bias."
  const DemoQuestion2: string :=
    "How does machine learning differ from traditional programming approaches?"
  const DemoAnswer2: string :=
    "Traditional programming involves explicitly writing rules and logic to solve problems, where developers define every step. Machine learning, however, learns patterns from data without being explicitly programmed. In traditional programming, you write: 'if condition A, then do B.' In ML, you provide examples and the system learns the patterns. Traditional programs are deterministic and predictable, while ML models are probabilistic. ML excels at tasks like image recognition, natural language processing, and pattern detection where writing explicit rules is impractical. Traditional programming is better for well-defined, rule-based tasks. ML requires large datasets for training, while traditional programs need clear specifications."
  const DemoCritique2: string :=
    "Agent B delivered an exceptionally clear explanation with concrete examples. The comparison effectively illustrates the fundamental paradigm shift between the two approaches, making it accessible to both technical and non-technical audiences."
  const DemoQuestion3: string :=
    "What are the best practices for securing a REST API?"
  const DemoAnswer3: string :=
    "Securing a REST API requires multiple layers of protection. First, always use HTTPS to encrypt data in transit. Implement robust authentication using OAuth 2.0 or JWT tokens, never relying on API keys alone. Use rate limiting to prevent abuse and DDoS attacks. Validate and sanitize all input to prevent injection attacks. Implement proper authorization checks ensuring users can only access their own resources. Use CORS policies to control which domains can access your API. Keep dependencies updated and scan for vulnerabilities regularly. Log all API access for monitoring and auditing. Implement API versioning to manage changes safely. Use security headers like Content-Security-Policy and X-Frame-Options. Consider API gateways for centralized security management."
  const DemoCritique3: string :=
    "Agent A provided a comprehensive security checklist covering all critical aspects from encryption to monitoring. The response is actionable and follows industry best practices, making it highly valuable for developers."
  const DemoQuestion4: string :=
    "Explain the concept of microservices architecture and its advantages over monolithic architecture"
  const DemoAnswer4: string :=
    "Microservices architecture breaks down applications into small, independent services that communicate via APIs. Each service handles a specific business capability and can be developed, deployed, and scaled independently. Advantages include: independent deployment allowing faster releases, technology flexibility where each service can use different tech stacks, better fault isolation preventing system-wide failures, easier scaling of specific components, and improved team autonomy. However, microservices add complexity in deployment, monitoring, and inter-service communication. Monolithic architecture, where all components are tightly coupled in a single codebase, is simpler to develop initially but becomes harder to maintain and scale as the application grows. The choice depends on team size, application complexity, and scalability requirements."
  const DemoCritique4: string :=
    "Agent B provided a balanced explanation covering both architectures' trade-offs. The response acknowledges that microservices aren't always the best choice, showing nuanced understanding of architectural decisions."

  /** The adapter applied to the record at position `idx` of the legacy list. */
  function AdaptConversation(conv: LegacyConversation, idx: int): HistoryItem {
    HistoryItem(
      turnId := idx,
      question := if Truthy(conv.title) then conv.title.value else "Conversation",
      chosenAgent := AgentA,
      enhancedAnswer := "",
      referee := Referee(Scores(0, 0, 0), LegacyCritique, AgentA),
      createdAt := conv.createdAt,
      humanLabel := None)
  }

  /** `conversations.map((conv, idx) => ...)`: one history item per legacy
      record, numbered by position, with a synthetic verdict. */
  function AdaptLegacy(convs: seq<LegacyConversation>): (r: seq<HistoryItem>)
    ensures |r| == |convs|
    ensures forall i :: 0 <= i < |r| ==> r[i].turnId == i && r[i].createdAt == convs[i].createdAt
    ensures forall i :: 0 <= i < |r| ==>
      r[i].question == (if Truthy(convs[i].title) then convs[i].title.value else "Conversation")
    ensures forall i :: 0 <= i < |r| ==>
      r[i].chosenAgent == AgentA && r[i].enhancedAnswer == "" && r[i].humanLabel == None &&
      r[i].referee == Referee(Scores(0, 0, 0), LegacyCritique, AgentA)
    ensures AllConsistent(r) && DistinctTurnIds(r)
    ensures forall i :: 0 <= i < |r| ==> ScoresInRange(r[i].referee.scores)
  {
    seq(|convs|, i requires 0 <= i < |convs| => AdaptConversation(convs[i], i))
  }

  /** `getHistory(userId)`: demo data for an anonymous caller; otherwise the
      primary endpoint, falling back to the legacy endpoint, and to an empty
      list when both fail or anything inside the `try` throws. The OK primary
      body is returned without being awaited inside the `try`, so a parse
      failure of that body is the one way the promise rejects. */
  function GetHistory(
    base: string, clock: Clock, userId: Option<string>,
    primary: HttpOutcome<seq<HistoryItem>>, legacy: HttpOutcome<seq<LegacyConversation>>
  ): (r: Call<seq<HistoryItem>>)
    ensures (r.requests == []) == !Truthy(userId)
    ensures !Truthy(userId) ==> r.result == Resolved(DummyHistory(clock))
    ensures Truthy(userId) ==> r.requests[0] == Request(Get, HistoryUrl(base, userId.value), None)
    ensures r.result.Rejected? <==> Truthy(userId) && primary.Ok? && primary.body.Malformed?
    ensures Request(Get, LegacyUrl(base), None) in r.requests <==> Truthy(userId) && primary.NotOk?
    ensures |r.requests| <= 2
    ensures Truthy(userId) && primary.Ok? && primary.body.Parsed? ==> r.result == Resolved(primary.body.value)
    ensures Truthy(userId) && (primary.Throws? || (primary.NotOk? && !legacy.Ok?)) ==> r.result == Resolved([])
    ensures Truthy(userId) && primary.NotOk? && legacy.Ok? && legacy.body.Parsed? ==>
      r.result == Resolved(AdaptLegacy(legacy.body.value))
    ensures Truthy(userId) && primary.NotOk? && legacy.Ok? && legacy.body.Malformed? ==> r.result == Resolved([])
  {
    if !Truthy(userId) then
      Call([], Resolved(DummyHistory(clock)))
    else
      var first := Request(Get, HistoryUrl(base, userId.value), None);
      var second := Request(Get, LegacyUrl(base), None);
      assert first != second by {
        var k := |base| + 5;
        assert first.url[k] == 'h' && second.url[k] == 'c';
      }
      match primary
      case Throws(_) => Call([first], Resolved([]))
      case Ok(body) =>
        (match body
         case Parsed(items) => Call([first], Resolved(items))
         case Malformed(reason) => Call([first], Rejected(reason)))
      case NotOk(_, _) =>
        (match legacy
         case Ok(Parsed(convs)) => Call([first, second], Resolved(AdaptLegacy(convs)))
         case _ => Call([first, second], Resolved([])))
  }

  /** What settles a strict call: a parsed 2xx body, a rejection carrying the
      status and body text, or the transport's or parser's own failure. */
  function Strict<T>(response: HttpOutcome<T>): (r: Promise<T>)
    ensures r.Resolved? <==> response.Ok? && response.body.Parsed?
    ensures r.Resolved? ==> r.value == response.body.value
    ensures response.NotOk? ==> r == Rejected(ApiErrorMessage(response.status, response.text))
  {
    match response
    case Ok(Parsed(v)) => Resolved(v)
    case Ok(Malformed(reason)) => Rejected(reason)
    case NotOk(status, text) => Rejected(ApiErrorMessage(status, text))
    case Throws(reason) => Rejected(reason)
  }

  /** `askQuestion(question, userId)`: one POST to `/api/ask`, no retry and no
      fallback; a non-2xx response rejects with the status and body text. */
  function AskQuestion<T>(base: string, question: string, userId: Option<string>, response: HttpOutcome<T>): (r: Call<T>)
    ensures r.requests == [Request(Post, AskUrl(base), Some(AskPayload(question, userId)))]
    ensures r.result.Resolved? <==> response.Ok? && response.body.Parsed?
    ensures r.result.Resolved? ==> r.result.value == response.body.value
    ensures response.NotOk? ==> r.result == Rejected(ApiErrorMessage(response.status, response.text))
  {
    Call([Request(Post, AskUrl(base), Some(AskPayload(question, userId)))], Strict(response))
  }

  /** `submitLabel(turnId, label)`: one POST to `/api/feedback`; a 2xx response
      resolves without reading its body, a non-2xx one rejects. */
  function SubmitLabel<T>(base: string, turnId: int, feedbackLabel: string, response: HttpOutcome<T>): (r: Call<()>)
    ensures r.requests == [Request(Post, FeedbackUrl(base), Some(FeedbackPayload(turnId, feedbackLabel)))]
    ensures r.result.Resolved? <==> response.Ok?
    ensures response.NotOk? ==> r.result == Rejected(ApiErrorMessage(response.status, response.text))
  {
    var result := match response
      case Ok(_) => Resolved(())
      case NotOk(status, text) => Rejected(ApiErrorMessage(status, text))
      case Throws(reason) => Rejected(reason);
    Call([Request(Post, FeedbackUrl(base), Some(FeedbackPayload(turnId, feedbackLabel)))], result)
  }

  /** A 500 from the feedback endpoint rejects with a message naming 500. */
  lemma SubmitLabelServerError(base: string, text: string)
    ensures SubmitLabel<()>(base, 42, "agree", NotOk(500, text)).result == Rejected("API error: 500 - " + text)
  {
    assert ShowNat(5) == "5";
    assert ShowNat(50) == "50";
    assert ShowNat(500) == "500";
  }
}
