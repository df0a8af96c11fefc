/**
 * The three-stage research pipeline (server/agents.ts): a web researcher
 * that asks the model for search queries and runs at most two web
 * searches, an associate that synthesises the facts and the search
 * results, and a lawyer that drafts the verdict.
 *
 * Each stage is given twice. A function (`Researcher`, `Associate`,
 * `Lawyer`, `Workflow`) states what the stage returns and the log entries
 * it writes, in order; a method of the same name prefixed with `Run`
 * performs the stage against a `Store.Database`, appending one log row per
 * entry, and is proved to produce exactly that output and those rows.
 *
 * The model and the search engine are oracles: the model is reached
 * through `Gateway.Invoke` over an abstract network, and the search engine
 * is a function from request to reply.
 */
module Pipeline {
  import opened Base
  import opened Js
  import opened Gateway
  import opened Sanitizer
  import Store

  // ---------------------------------------------------------------------
  // Context and services
  // ---------------------------------------------------------------------

  /** `AgentExecutionContext`, without the `logs` list that no stage ever fills. */
  datatype Context = Context(caseId: int, query: string, description: Option<string>)

  /** The body posted to the search endpoint. */
  datatype SearchRequest = SearchRequest(apiKey: string, query: Json, includeAnswer: bool, maxResults: int)

  /**
   * What one search came back with: nothing usable (the request threw, the
   * reply was not 2xx, or its body was not JSON), or the parsed body.
   */
  datatype SearchReply = Unavailable | Answered(data: Json)

  /**
   * Everything outside the pipeline it depends on. `model` answers one
   * stage's messages; `Wired` ties it to the gateway over `net`.
   */
  datatype Services = Services(
    env: Env,
    lib: JsLib,
    net: Network,
    model: seq<Message> -> Result<Completion>,
    search: SearchRequest -> SearchReply,
    nowMs: nat)

  /** One `addAgentLog` call: agent, action and the three optional texts. */
  datatype Entry = Entry(agent: string, action: string, input: Option<string>, output: Option<string>, reasoning: Option<string>)

  /** What a stage returns together with the entries it logged. */
  datatype StageRun = StageRun(output: string, trace: seq<Entry>)

  /** The lawyer either returns a verdict or raises; its entries are logged either way. */
  datatype LawyerRun = LawyerRun(verdict: Result<string>, trace: seq<Entry>)

  /** The object `executeLegalResearchWorkflow` resolves to. */
  datatype WorkflowResult = WorkflowResult(success: bool, result: Option<string>, logs: seq<Entry>, error: Option<string>)

  datatype WorkflowRun = WorkflowRun(outcome: WorkflowResult, trace: seq<Entry>)

  /** `ctx.description || fallback`. */
  function DescriptionOr(ctx: Context, fallback: string): string {
    if ctx.description.Some? && ctx.description.value != "" then ctx.description.value else fallback
  }

  // ---------------------------------------------------------------------
  // Talking to the model
  // ---------------------------------------------------------------------

  /** `ENV.geminiApiKey ? "gemini" : "demo"`. */
  function StageProvider(env: Env): Provider {
    if env.geminiApiKey != "" then Gemini else Demo
  }

  function UserMessage(text: string): Message {
    Message(User, Single(Str(text)), None, None)
  }

  /** Every stage asks for a JSON object (in the snake-case spelling) from its fixed provider. */
  function StageParams(env: Env, messages: seq<Message>): Params {
    Params(messages, None, Some(JsonObject), Some(StageProvider(env)), "")
  }

  /** The model a stage talks to is `invokeLLM` with the stage's parameters. */
  ghost predicate Wired(svc: Services) {
    forall messages :: svc.model(messages) == Invoke(svc.env, svc.lib, svc.net, StageParams(svc.env, messages), svc.nowMs)
  }

  function Ask(svc: Services, messages: seq<Message>): Result<Completion> {
    svc.model(messages)
  }

  /** A stage's request is always answered by the gateway itself: one assembled choice. */
  lemma AskAssembled(svc: Services, messages: seq<Message>)
    requires Wired(svc)
    ensures Ask(svc, messages).Ok? ==>
      Ask(svc, messages).value.Assembled? && |Ask(svc, messages).value.choices| == 1
    ensures svc.env.geminiApiKey == "" ==> Ask(svc, messages) == Ok(DemoResult(svc.nowMs))
  {
    var p := StageParams(svc.env, messages);
    assert svc.model(messages) == Invoke(svc.env, svc.lib, svc.net, p, svc.nowMs);
    assert SelectProvider(p.provider, svc.env) == StageProvider(svc.env);
  }

  /** The TypeError JavaScript raises for reading `key` off `undefined` or `null`. */
  function ReadError(isNull: bool, key: string): string {
    "Cannot read properties of " + (if isNull then "null" else "undefined") + " (reading '" + key + "')"
  }

  /** `v.key` as JavaScript evaluates it, where None is `undefined`: null and undefined raise. */
  function ReadProperty(v: Option<Json>, key: string): (r: Result<Option<Json>>)
    ensures v.None? ==> r == Err(ReadError(false, key))
    ensures v == Some(JNull) ==> r == Err(ReadError(true, key))
    ensures v.Some? && v.value != JNull ==> r == Ok(Get(v.value, key))
  {
    if v.None? then Err(ReadError(false, key))
    else if v.value == JNull then Err(ReadError(true, key))
    else Ok(Get(v.value, key))
  }

  /** `v[0]`: an array's first item, a string's first character, an object's "0" field. */
  function ReadFirstItem(v: Option<Json>): (r: Result<Option<Json>>)
    ensures v.None? ==> r == Err(ReadError(false, "0"))
    ensures v == Some(JNull) ==> r == Err(ReadError(true, "0"))
    ensures v.Some? && v.value.JArr? ==> r == Ok(First(v))
  {
    match v
    case None => Err(ReadError(false, "0"))
    case Some(JNull) => Err(ReadError(true, "0"))
    case Some(JArr(_)) => Ok(First(v))
    case Some(JStr(t)) => Ok(if t == "" then None else Some(JStr([t[0]])))
    case Some(u) => Ok(Get(u, "0"))
  }

  /** `data.choices[0].message` of a passed-through body. */
  function PassedMessage(data: Json): Result<Option<Json>> {
    match ReadProperty(Some(data), "choices")
    case Err(e) => Err(e)
    case Ok(choices) =>
      match ReadFirstItem(choices)
      case Err(e) => Err(e)
      case Ok(first) => ReadProperty(first, "message")
  }

  /**
   * `result.choices[0].message.content`, where a missing content reads as
   * a falsy value. A passed-through body is read along the same path, and
   * raises as JavaScript does where the path meets `undefined` or `null`.
   */
  function ReplyContent(c: Completion): (r: Result<Json>)
    ensures c.Assembled? && |c.choices| > 0 ==> r == Ok(c.choices[0].content)
    ensures c.Assembled? && |c.choices| == 0 ==> r == Err(ReadError(false, "message"))
    ensures c.Passed? ==>
      match PassedMessage(c.data)
      case Err(e) => r == Err(e)
      case Ok(m) =>
        (m.None? ==> r == Err(ReadError(false, "content")))
        && (m == Some(JNull) ==> r == Err(ReadError(true, "content")))
        && (m.Some? && m.value != JNull ==>
              r == Ok(var content := Get(m.value, "content"); if content.Some? then content.value else JNull))
  {
    match c
    case Assembled(_, _, _, choices) =>
      if |choices| == 0 then Err(ReadError(false, "message"))
      else Ok(choices[0].content)
    case Passed(data) =>
      match PassedMessage(data)
      case Err(e) => Err(e)
      case Ok(m) =>
        match ReadProperty(m, "content")
        case Err(e) => Err(e)
        case Ok(content) => Ok(if content.Some? then content.value else JNull)
  }

  /** A chat-completions body yields the content of its first choice's message. */
  lemma PassedReplyContent(content: Json)
    ensures ReplyContent(Passed(JObj(map["choices" := JArr([JObj(map["message" := JObj(map["content" := content])])])]))) == Ok(content)
  {
  }

  /** A first choice whose message is null raises, as reading `content` off null does. */
  lemma NullMessageRaises()
    ensures ReplyContent(Passed(JObj(map["choices" := JArr([JObj(map["message" := JNull])])]))) == Err(ReadError(true, "content"))
  {
  }

  /**
   * `cleanJsonOutput(content as string)`: the cast checks nothing, so a
   * falsy content becomes "{}" and any other non-string raises when its
   * `replace` is called.
   */
  function SanitizeContent(content: Json): (r: Result<string>)
    ensures !Truthy(content) ==> r == Ok("{}")
    ensures content.JStr? ==> r == Ok(CleanJsonOutput(content.s))
    ensures r.Err? <==> Truthy(content) && !content.JStr?
    ensures r.Ok? ==> NoFence(r.value)
  {
    if !Truthy(content) then
      assert CleanJsonOutput("") == "{}";
      Ok("{}")
    else if content.JStr? then Ok(CleanJsonOutput(content.s))
    else Err("text.replace is not a function")
  }

  /** Ask the model and clean what it says; any failure on the way is raised. */
  function StageOutput(svc: Services, messages: seq<Message>): (r: Result<string>)
    ensures Ask(svc, messages).Err? ==> r == Err(Ask(svc, messages).error)
    ensures r.Ok? ==> NoFence(r.value)
  {
    match Ask(svc, messages)
    case Err(e) => Err(e)
    case Ok(c) =>
      match ReplyContent(c)
      case Err(e) => Err(e)
      case Ok(content) => SanitizeContent(content)
  }

  /** With no Gemini key every stage sees the demo verdict, cleaned. */
  lemma DemoStageOutput(svc: Services, messages: seq<Message>)
    requires Wired(svc) && svc.env.geminiApiKey == ""
    ensures StageOutput(svc, messages) == Ok(CleanJsonOutput(DemoContent))
  {
    AskAssembled(svc, messages);
  }

  // ---------------------------------------------------------------------
  // Log entries
  // ---------------------------------------------------------------------

  const LawyerAgent: string := "Lawyer"
  const ResearcherAgent: string := "WebResearcher"
  const AssociateAgent: string := "Associate"

  const InitiatedAction: string := "initiated"
  const StartedAction: string := "started"
  const CompletedAction: string := "completed"
  const FailedAction: string := "failed"

  /** The workflow's opening entry. */
  function Initiated(query: string): Entry {
    Entry(LawyerAgent, InitiatedAction, Some(query), None, None)
  }

  function ResearcherStarted(q: string): Entry {
    Entry(ResearcherAgent, StartedAction, Some(q), None, None)
  }

  function ResearcherCompleted(q: string, results: string): Entry {
    Entry(ResearcherAgent, CompletedAction, Some(q), Some(results), Some(FoundReasoning(results)))
  }

  const AssociateStarted: Entry := Entry(AssociateAgent, StartedAction, Some("Synthesizing facts and search results..."), None, None)

  function AssociateCompleted(output: string): Entry {
    Entry(AssociateAgent, CompletedAction, Some("Synthesized Analysis"), Some(output), Some("Synthesis complete"))
  }

  function AssociateFailed(msg: string): Entry {
    Entry(AssociateAgent, FailedAction, Some("Synthesis"), None, Some(msg))
  }

  const LawyerStarted: Entry := Entry(LawyerAgent, StartedAction, Some("Drafting final verdict..."), None, None)

  function LawyerCompleted(verdict: string): Entry {
    Entry(LawyerAgent, CompletedAction, Some("Verdict"), Some(verdict), Some("Verdict delivered"))
  }

  // ---------------------------------------------------------------------
  // Web researcher
  // ---------------------------------------------------------------------

  const ResearcherFallback: string := "Search failed." + " Proceeding with internal analysis."
  const SearchDisabled: string := "Web Search Disabled (No API Key)." + " Analysis will be based on internal knowledge."
  const NoWebResults: string := "No direct web results found." + " Relying on general legal knowledge."

  /** The situation the formulation prompt describes. */
  function ResearchContext(ctx: Context, q: string): string {
    "Query: " + q + "\nContext: " + DescriptionOr(ctx, "No background provided.")
  }

  /** The query-formulation prompt, with the situation clamped to 2000 characters. */
  const FormulationHead: string :=
    "You are a legal researcher. Generate 3 specific search queries to find case law or statutes relevant to this situation.\n"
    + "          \n"
    + "          Situation:\n"
    + "          "

  const FormulationTail: string :=
    "\n"
    + "          \n"
    + "          Return ONLY a JSON array: {\"queries\": [\"string\", \"string\"]}"

  function FormulationPrompt(ctx: Context, q: string): string {
    FormulationHead + ClampText(ResearchContext(ctx, q), FormulationLimit) + FormulationTail
  }

  /**
   * The truthy `queries` property of the model's cleaned, parsed answer;
   * None when reading the content, cleaning it or parsing it raised, or the
   * property is missing or falsy. (`JSON.parse(clean).queries` of a parsed
   * `null` raises too; `Get` of `JNull` is None, which covers it.)
   */
  function OfferedQueries(lib: JsLib, content: Result<Json>): (r: Option<Json>)
    ensures r.Some? ==> Truthy(r.value)
    ensures r.Some? <==>
      && content.Ok?
      && SanitizeContent(content.value).Ok?
      && lib.parse(SanitizeContent(content.value).value).Some?
      && Present(Get(lib.parse(SanitizeContent(content.value).value).value, "queries"))
  {
    if content.Err? then None
    else
      match SanitizeContent(content.value)
      case Err(_) => None
      case Ok(clean) =>
        match lib.parse(clean)
        case None => None
        case Some(v) =>
          var qs := Get(v, "queries");
          if Present(qs) then qs else None
  }

  /** `queries = JSON.parse(clean).queries || [searchQuery]`, and `[searchQuery]` on any error. */
  function Queries(lib: JsLib, content: Result<Json>, q: string): (r: Json)
    ensures Truthy(r)
    ensures OfferedQueries(lib, content).None? ==> r == JArr([JStr(q)])
    ensures OfferedQueries(lib, content).Some? ==> r == OfferedQueries(lib, content).value
  {
    match OfferedQueries(lib, content)
    case None => JArr([JStr(q)])
    case Some(v) => v
  }

  /** What iterating over a string yields: its characters, each a one-character string. */
  function Characters(s: string): (r: seq<Json>)
    ensures |r| == |s|
    ensures forall k :: 0 <= k < |s| ==> r[k] == JStr([s[k]])
  {
    if s == [] then [] else [JStr([s[0]])] + Characters(s[1..])
  }

  /**
   * `queries.slice(0, 2)` as a `for … of` walks it: the first two items of
   * an array, the first two characters of a string, and a TypeError for
   * anything else.
   */
  function FirstTwo(queries: Json): (r: Result<seq<Json>>)
    ensures r.Ok? <==> queries.JArr? || queries.JStr?
    ensures r.Ok? ==> |r.value| <= 2
    ensures queries.JArr? ==> r.value == queries.items[..if |queries.items| < 2 then |queries.items| else 2]
    ensures queries.JStr? ==> r.value == Characters(queries.s[..if |queries.s| < 2 then |queries.s| else 2])
    ensures r.Err? ==> r.error == "queries.slice is not a function"
  {
    match queries
    case JArr(items) => Ok(items[..if |items| < 2 then |items| else 2])
    case JStr(s) => Ok(Characters(s[..if |s| < 2 then |s| else 2]))
    case _ => Err("queries.slice is not a function")
  }

  /** The request for one sub-query: an answer included, at most three results. */
  function SearchRequestFor(apiKey: string, subq: Json): SearchRequest {
    SearchRequest(apiKey, subq, true, 3)
  }

  /**
   * What one search contributes to `aggregated.push(...(data.results || []))`:
   * the items of an array, the characters of a string, and nothing when
   * the search failed, the body was null, or `results` was falsy or not
   * iterable (the error is caught and only reported on the console).
   */
  function HitsOf(reply: SearchReply): (r: seq<Json>)
    ensures reply.Unavailable? ==> r == []
    ensures reply.Answered? && Present(Get(reply.data, "results")) && Get(reply.data, "results").value.JArr? ==>
      r == Get(reply.data, "results").value.items
  {
    match reply
    case Unavailable => []
    case Answered(data) =>
      var results := Get(data, "results");
      if !Present(results) then []
      else
        match results.value
        case JArr(items) => items
        case JStr(s) => Characters(s)
        case _ => []
  }

  /** All hits of the sub-queries, in order. */
  function Aggregate(svc: Services, subqs: seq<Json>): seq<Json> {
    if subqs == [] then []
    else Aggregate(svc, subqs[..|subqs| - 1]) + HitsOf(svc.search(SearchRequestFor(svc.env.tavilyApiKey, subqs[|subqs| - 1])))
  }

  /** When every search fails, nothing is aggregated. */
  lemma {:induction false} AggregateOfUnavailable(svc: Services, subqs: seq<Json>)
    requires forall k :: 0 <= k < |subqs| ==> svc.search(SearchRequestFor(svc.env.tavilyApiKey, subqs[k])).Unavailable?
    ensures Aggregate(svc, subqs) == []
  {
    if subqs != [] {
      AggregateOfUnavailable(svc, subqs[..|subqs| - 1]);
    }
  }

  /** `${v}` of a property read, where None is `undefined`. */
  function Interpolate(lib: JsLib, o: Option<Json>): string {
    if o.None? then "undefined" else ToJsString(lib, o.value)
  }

  /** The header of the n-th source. */
  function SourceHeader(n: nat): string {
    "Source [" + NatToString(n) + "]: "
  }

  /** One rendered hit: its 1-based number, title, URL and content. */
  function SourceBlock(lib: JsLib, n: nat, hit: Json): (r: string)
    ensures StartsWith(r, SourceHeader(n))
  {
    var rest := Interpolate(lib, Get(hit, "title"))
      + "\nURL: " + Interpolate(lib, Get(hit, "url"))
      + "\nContent: " + Interpolate(lib, Get(hit, "content"));
    assert (SourceHeader(n) + rest)[..|SourceHeader(n)|] == SourceHeader(n);
    SourceHeader(n) + rest
  }

  function SourceBlocks(lib: JsLib, hits: seq<Json>): (r: seq<string>)
    ensures |r| == |hits|
    ensures forall k :: 0 <= k < |hits| ==> r[k] == SourceBlock(lib, k + 1, hits[k])
  {
    seq(|hits|, k requires 0 <= k < |hits| => SourceBlock(lib, k + 1, hits[k]))
  }

  /**
   * The hits rendered and joined by a blank line; reading `title` of a
   * null hit raises.
   */
  function RenderHits(lib: JsLib, hits: seq<Json>): (r: Result<string>)
    ensures r.Err? <==> JNull in hits
    ensures r.Ok? ==> r.value == Join(SourceBlocks(lib, hits), "\n\n")
  {
    if JNull in hits then Err(ReadError(true, "title"))
    else Ok(Join(SourceBlocks(lib, hits), "\n\n"))
  }

  /** A joined list starts with its first part. */
  lemma JoinHead(parts: seq<string>, sep: string)
    requires parts != []
    ensures StartsWith(Join(parts, sep), parts[0])
  {
    if |parts| > 1 {
      var j := Join(parts, sep);
      assert j == parts[0] + (sep + Join(parts[1..], sep));
      assert j[..|parts[0]|] == parts[0];
    }
  }

  /** A rendering of at least one hit starts with the first source's header. */
  lemma RenderHitsHead(lib: JsLib, hits: seq<Json>)
    requires hits != [] && JNull !in hits
    ensures StartsWith(RenderHits(lib, hits).value, "Source [1]: ")
  {
    var blocks := SourceBlocks(lib, hits);
    assert NatToString(1) == "1";
    assert SourceHeader(1) == "Source [1]: ";
    JoinHead(blocks, "\n\n");
    var j := Join(blocks, "\n\n");
    assert j[..|blocks[0]|] == blocks[0];
    assert blocks[0][..12] == "Source [1]: ";
    assert j[..12] == blocks[0][..|blocks[0]|][..12];
  }

  /**
   * The search phase: disabled without a search key; otherwise at most two
   * searches, whose hits are rendered, or the no-results notice when there
   * are none.
   */
  function SearchPhase(svc: Services, queries: Json): (r: Result<string>)
    ensures svc.env.tavilyApiKey == "" ==> r == Ok(SearchDisabled)
    ensures svc.env.tavilyApiKey != "" && FirstTwo(queries).Err? ==> r == Err(FirstTwo(queries).error)
    ensures svc.env.tavilyApiKey != "" && FirstTwo(queries).Ok? ==>
      var hits := Aggregate(svc, FirstTwo(queries).value);
      && (hits == [] ==> r == Ok(NoWebResults))
      && (hits != [] ==> r == RenderHits(svc.lib, hits))
  {
    if svc.env.tavilyApiKey == "" then Ok(SearchDisabled)
    else
      match FirstTwo(queries)
      case Err(e) => Err(e)
      case Ok(subqs) =>
        var hits := Aggregate(svc, subqs);
        if |hits| > 0 then RenderHits(svc.lib, hits) else Ok(NoWebResults)
  }

  /**
   * The completed entry's reasoning,
   * `Found ${searchResults.length > 200 ? "results" : "no results"}`:
   * results count as found only when longer than 200 characters.
   */
  function FoundReasoning(results: string): (r: string)
    ensures r == "Found results" <==> |results| > 200
    ensures r == "Found no results" <==> |results| <= 200
  {
    if |results| > 200 then "Found results" else "Found no results"
  }

  function ResearcherFailed(q: string, msg: string): Entry {
    Entry(ResearcherAgent, FailedAction, Some(q), None, Some(msg))
  }

  /** What the researcher's `try` block yields: the search results, or the error it raised. */
  function ResearchOutcome(svc: Services, ctx: Context, q: string): (r: Result<string>)
    ensures var asked := Ask(svc, [UserMessage(FormulationPrompt(ctx, q))]);
      && (asked.Err? ==> r == Err(asked.error))
      && (asked.Ok? && svc.env.tavilyApiKey == "" ==> r == Ok(SearchDisabled))
      && (asked.Ok? ==> r == SearchPhase(svc, Queries(svc.lib, ReplyContent(asked.value), q)))
  {
    match Ask(svc, [UserMessage(FormulationPrompt(ctx, q))])
    case Err(msg) => Err(msg)
    case Ok(c) => SearchPhase(svc, Queries(svc.lib, ReplyContent(c), q))
  }

  /**
   * `webResearcherAgent`: log the start, formulate queries, search, and log
   * the outcome. Any error is logged and replaced by the fallback notice;
   * the researcher never raises.
   */
  function Researcher(svc: Services, ctx: Context, q: string): (r: StageRun)
    ensures |r.trace| == 2
    ensures r.trace[0] == ResearcherStarted(q)
    ensures r.trace[1].agent == ResearcherAgent && r.trace[1].input == Some(q)
    ensures var outcome := ResearchOutcome(svc, ctx, q);
      && (outcome.Err? ==> r.output == ResearcherFallback && r.trace[1] == ResearcherFailed(q, outcome.error))
      && (outcome.Ok? ==>
            r.output == outcome.value
            && r.trace[1] == ResearcherCompleted(q, r.output))
  {
    var started := ResearcherStarted(q);
    match ResearchOutcome(svc, ctx, q)
    case Err(msg) => StageRun(ResearcherFallback, [started, ResearcherFailed(q, msg)])
    case Ok(results) =>
      StageRun(results, [started, ResearcherCompleted(q, results)])
  }

  /**
   * The sub-queries the researcher searches for: at most two; exactly the
   * user's query when the model failed or offered no usable queries
   * (including every reply that does not parse); and the first two
   * offered queries when the model offered a list.
   */
  lemma AtMostTwoSearches(lib: JsLib, content: Result<Json>, q: string)
    ensures var subqs := FirstTwo(Queries(lib, content, q));
      && (subqs.Ok? ==> |subqs.value| <= 2)
      && (OfferedQueries(lib, content).None? ==> subqs == Ok([JStr(q)]))
      && (content.Err? ==> subqs == Ok([JStr(q)]))
      && (content.Ok? && SanitizeContent(content.value).Ok? && lib.parse(SanitizeContent(content.value).value).None? ==>
            subqs == Ok([JStr(q)]))
      && (OfferedQueries(lib, content).Some? && OfferedQueries(lib, content).value.JArr? ==>
            var items := OfferedQueries(lib, content).value.items;
            subqs == Ok(items[..if |items| < 2 then |items| else 2]))
  {
    assert [JStr(q)][..1] == [JStr(q)];
  }

  // ---------------------------------------------------------------------
  // Research associate
  // ---------------------------------------------------------------------

  const AssociateInstruction: string :=
    "You are a Legal Associate. Synthesize the Case Facts and Web Search Results.\n"
    + "          Identify relevant statutes (e.g., Article 14, Contract Act) and precedents.\n"
    + "          \n"
    + "          Return JSON: {\"precedents\": [], \"statutes\": [], \"principles\": [], \"arguments\": []}"

  /** The associate's input: the user's query, the case facts and the search results. */
  function AssociateInput(ctx: Context, results: string): string {
    "USER QUERY: " + ctx.query + "\n  \n  CASE FACTS (Important): \n  " + DescriptionOr(ctx, "None provided")
    + "\n\n  WEB SEARCH RESULTS: \n  " + results
  }

  function AssociateMessages(ctx: Context, results: string): seq<Message> {
    [UserMessage(AssociateInstruction), UserMessage(ClampText(AssociateInput(ctx, results), PromptLimit))]
  }

  /** `{ error: msg, arguments: ["Analysis failed"] }`. */
  function AnalysisFailed(msg: string): Json {
    JObj(map["error" := JStr(msg), "arguments" := JArr([JStr("Analysis failed")])])
  }

  /**
   * `researchAssociateAgent`: like the researcher it never raises; a failure
   * is logged and the stage returns a JSON error object instead.
   */
  function Associate(svc: Services, ctx: Context, results: string): (r: StageRun)
    ensures |r.trace| == 2
    ensures r.trace[0] == AssociateStarted
    ensures var out := StageOutput(svc, AssociateMessages(ctx, results));
      && (out.Ok? ==>
            r.output == out.value
            && r.trace[1] == AssociateCompleted(out.value))
      && (out.Err? ==>
            r.output == svc.lib.stringify(AnalysisFailed(out.error))
            && r.trace[1] == AssociateFailed(out.error))
  {
    var started := AssociateStarted;
    match StageOutput(svc, AssociateMessages(ctx, results))
    case Err(msg) =>
      StageRun(svc.lib.stringify(AnalysisFailed(msg)), [started, AssociateFailed(msg)])
    case Ok(output) =>
      StageRun(output, [started, AssociateCompleted(output)])
  }

  // ---------------------------------------------------------------------
  // Lawyer
  // ---------------------------------------------------------------------

  const LawyerInstruction: string :=
    "You are a Senior Judge/Lawyer. Write a verdict based on the Facts and Synthesis.\n"
    + "          \n"
    + "          OUTPUT FORMAT (JSON ONLY):\n"
    + "          {\n"
    + "            \"summary\": \"Brief summary of the case facts (2-3 sentences)\",\n"
    + "            \"analysis\": \"Legal reasoning applying statutes/precedents to the facts\",\n"
    + "            \"recommendation\": \"Clear advice for the client\",\n"
    + "            \"riskAssessment\": \"High/Medium/Low with reason\",\n"
    + "            \"citations\": [\"List specific sections/cases\"]\n"
    + "          }\n"
    + "          Do NOT include markdown formatting."

  function LawyerInput(ctx: Context, synthesis: string): string {
    "CASE FACTS: " + DescriptionOr(ctx, "N/A") + "\n  \n  ASSOCIATE SYNTHESIS: \n  " + synthesis
  }

  function LawyerMessages(ctx: Context, synthesis: string): seq<Message> {
    [UserMessage(LawyerInstruction), UserMessage(ClampText(LawyerInput(ctx, synthesis), PromptLimit))]
  }

  /**
   * `lawyerAgent`: the only stage that raises. It logs its start, and its
   * completion only when it has a verdict; a failure is never logged.
   */
  function Lawyer(svc: Services, ctx: Context, synthesis: string): (r: LawyerRun)
    ensures r.verdict == StageOutput(svc, LawyerMessages(ctx, synthesis))
    ensures |r.trace| == if r.verdict.Ok? then 2 else 1
    ensures r.trace[0] == LawyerStarted
    ensures r.verdict.Ok? ==> r.trace[1] == LawyerCompleted(r.verdict.value)
    ensures r.verdict.Ok? ==> NoFence(r.verdict.value)
  {
    var started := LawyerStarted;
    match StageOutput(svc, LawyerMessages(ctx, synthesis))
    case Err(msg) => LawyerRun(Err(msg), [started])
    case Ok(output) => LawyerRun(Ok(output), [started, LawyerCompleted(output)])
  }

  // ---------------------------------------------------------------------
  // The workflow
  // ---------------------------------------------------------------------

  /**
   * `executeLegalResearchWorkflow`: log the start, then run the three
   * stages in order. Only the lawyer can fail, and then the workflow
   * reports its message instead of a verdict.
   */
  function Workflow(svc: Services, caseId: int, query: string, description: Option<string>): WorkflowRun {
    var ctx := Context(caseId, query, description);
    var research := Researcher(svc, ctx, query);
    var synthesis := Associate(svc, ctx, research.output);
    var verdict := Lawyer(svc, ctx, synthesis.output);
    var trace := [Initiated(query)] + research.trace + synthesis.trace + verdict.trace;
    match verdict.verdict
    case Ok(v) => WorkflowRun(WorkflowResult(true, Some(v), [], None), trace)
    case Err(msg) => WorkflowRun(WorkflowResult(false, None, [], Some(msg)), trace)
  }

  /** No log entry reports a failed lawyer. */
  predicate NoLawyerFailure(trace: seq<Entry>) {
    forall k :: 0 <= k < |trace| ==> !(trace[k].agent == LawyerAgent && trace[k].action == FailedAction)
  }

  /** The entries of the three stages, put together behind the opening entry. */
  lemma {:induction false} StagesInOrder(init: Entry, rt: seq<Entry>, st: seq<Entry>, vt: seq<Entry>)
    requires init.agent == LawyerAgent && init.action == InitiatedAction
    requires |rt| == 2 && rt[0].agent == ResearcherAgent && rt[1].agent == ResearcherAgent
    requires |st| == 2 && st[0].agent == AssociateAgent && st[1].agent == AssociateAgent
    requires 1 <= |vt| <= 2 && vt[0].action == StartedAction && (|vt| == 2 ==> vt[1].action == CompletedAction)
    ensures var t := [init] + rt + st + vt;
      && |t| == 5 + |vt| && t[0] == init && t[1..3] == rt && t[3..5] == st && t[5..] == vt
      && NoLawyerFailure(t)
  {
    var t := [init] + rt + st + vt;
    assert t == [init, rt[0], rt[1], st[0], st[1]] + vt;
  }

  /**
   * The shape of a run: seven entries when a verdict is reached and six
   * otherwise, the stages in order, never a failed lawyer entry, the
   * result and the error mutually exclusive, and the `logs` list empty.
   * The trace is the stages' own traces in order, and the outcome is the
   * lawyer's: success exactly when it returned a verdict, its message as
   * the error otherwise.
   */
  lemma WorkflowShape(svc: Services, caseId: int, query: string, description: Option<string>)
    ensures var r := Workflow(svc, caseId, query, description);
      var ctx := Context(caseId, query, description);
      var research := Researcher(svc, ctx, query);
      var synthesis := Associate(svc, ctx, research.output);
      var verdict := Lawyer(svc, ctx, synthesis.output);
      && r.trace == [Initiated(query)] + research.trace + synthesis.trace + verdict.trace
      && r.outcome.success == verdict.verdict.Ok?
      && (verdict.verdict.Ok? ==> r.outcome.result == Some(verdict.verdict.value))
      && (verdict.verdict.Err? ==> r.outcome.error == Some(verdict.verdict.error))
    ensures var r := Workflow(svc, caseId, query, description);
      && |r.trace| == (if r.outcome.success then 7 else 6)
      && r.trace[0] == Initiated(query)
      && r.trace[1] == ResearcherStarted(query)
      && r.trace[2].agent == ResearcherAgent && r.trace[2].action in {CompletedAction, FailedAction}
      && r.trace[3] == AssociateStarted
      && r.trace[4].agent == AssociateAgent && r.trace[4].action in {CompletedAction, FailedAction}
      && r.trace[5] == LawyerStarted
      && (r.outcome.success ==> r.trace[6].action == CompletedAction && r.trace[6].output == r.outcome.result)
      && NoLawyerFailure(r.trace)
      && r.outcome.success == r.outcome.result.Some? && r.outcome.success == r.outcome.error.None?
      && r.outcome.logs == []
      && (r.outcome.success ==> NoFence(r.outcome.result.value))
  {
    var r := Workflow(svc, caseId, query, description);
    var ctx := Context(caseId, query, description);
    var research := Researcher(svc, ctx, query);
    var synthesis := Associate(svc, ctx, research.output);
    var verdict := Lawyer(svc, ctx, synthesis.output);
    var init := Initiated(query);
    StagesInOrder(init, research.trace, synthesis.trace, verdict.trace);
    assert r.trace[1..3] == research.trace;
    assert r.trace[3..5] == synthesis.trace;
    assert r.trace[5..] == verdict.trace;
  }

  /** Without a Gemini key the workflow always succeeds, with the demo verdict cleaned. */
  lemma DemoWorkflow(svc: Services, caseId: int, query: string, description: Option<string>)
    requires Wired(svc) && svc.env.geminiApiKey == ""
    ensures Workflow(svc, caseId, query, description).outcome == WorkflowResult(true, Some(CleanJsonOutput(DemoContent)), [], None)
  {
    var ctx := Context(caseId, query, description);
    var research := Researcher(svc, ctx, query);
    var synthesis := Associate(svc, ctx, research.output);
    DemoStageOutput(svc, LawyerMessages(ctx, synthesis.output));
  }

  // ---------------------------------------------------------------------
  // Log rows
  // ---------------------------------------------------------------------

  /** The rows `addAgentLog` appends for a trace, numbered on from `first`, all stamped `time`. */
  function LogRows(first: nat, caseId: int, trace: seq<Entry>, time: int): (r: seq<Store.LogRow>)
    ensures |r| == |trace|
    ensures forall k :: 0 <= k < |r| ==>
      r[k] == Store.LogRow(first + k + 1, caseId, trace[k].agent, trace[k].action, trace[k].input, trace[k].output, trace[k].reasoning, time)
  {
    if trace == [] then []
    else
      var e := trace[|trace| - 1];
      LogRows(first, caseId, trace[..|trace| - 1], time)
      + [Store.LogRow(first + |trace|, caseId, e.agent, e.action, e.input, e.output, e.reasoning, time)]
  }

  /** The rows of two traces logged one after the other are the rows of both. */
  lemma LogRowsConcat(first: nat, caseId: int, t1: seq<Entry>, t2: seq<Entry>, time: int)
    ensures LogRows(first, caseId, t1 + t2, time) == LogRows(first, caseId, t1, time) + LogRows(first + |t1|, caseId, t2, time)
  {
    var a, b, c := LogRows(first, caseId, t1 + t2, time), LogRows(first, caseId, t1, time), LogRows(first + |t1|, caseId, t2, time);
    assert |a| == |b + c|;
    forall k | 0 <= k < |a| ensures a[k] == (b + c)[k] {
      if k >= |t1| {
        assert (t1 + t2)[k] == t2[k - |t1|];
      }
    }
  }

  /** A run's rows all belong to its case and carry the logged entries in order. */
  lemma LogRowsOfCase(first: nat, caseId: int, trace: seq<Entry>, time: int)
    ensures Store.LogsOf(LogRows(first, caseId, trace, time), caseId) == LogRows(first, caseId, trace, time)
    ensures forall other :: other != caseId ==> Store.LogsOf(LogRows(first, caseId, trace, time), other) == []
    decreases |trace|
  {
    if trace != [] {
      LogRowsOfCase(first, caseId, trace[..|trace| - 1], time);
    }
  }

  /** Logging one more entry appends one more row. */
  lemma LogRowsSnoc(first: nat, caseId: int, trace: seq<Entry>, e: Entry, time: int)
    ensures LogRows(first, caseId, trace + [e], time)
      == LogRows(first, caseId, trace, time) + [Store.LogRow(first + |trace| + 1, caseId, e.agent, e.action, e.input, e.output, e.reasoning, time)]
  {
    assert (trace + [e])[..|trace|] == trace;
  }

  /** Rows logged by a stage after those of the earlier stages are the rows of both traces. */
  lemma FollowedBy(base: seq<Store.LogRow>, caseId: int, t1: seq<Entry>, t2: seq<Entry>,
                   before: seq<Store.LogRow>, after: seq<Store.LogRow>, time: int)
    requires before == base + LogRows(|base|, caseId, t1, time)
    requires after == before + LogRows(|before|, caseId, t2, time)
    ensures after == base + LogRows(|base|, caseId, t1 + t2, time)
  {
    assert |before| == |base| + |t1|;
    LogRowsConcat(|base|, caseId, t1, t2, time);
    AppendAssociates(base, LogRows(|base|, caseId, t1, time), LogRows(|base| + |t1|, caseId, t2, time),
                     LogRows(|base|, caseId, t1 + t2, time));
  }


  /** Append one entry's row through `addAgentLog`. */
  method Record(db: Store.Database, caseId: int, ghost base: seq<Store.LogRow>, ghost trace: seq<Entry>, e: Entry)
    requires db.Valid()
    requires db.logs == base + LogRows(|base|, caseId, trace, db.clock)
    modifies db
    ensures db.Valid() && db.clock == old(db.clock)
    ensures db.users == old(db.users) && db.cases == old(db.cases) && db.results == old(db.results)
    ensures db.logs == base + LogRows(|base|, caseId, trace + [e], db.clock)
  {
    db.AddAgentLog(caseId, e.agent, e.action, e.input, e.output, e.reasoning);
    LogRowsSnoc(|base|, caseId, trace, e, db.clock);
  }

  // ---------------------------------------------------------------------
  // The stages against the database
  // ---------------------------------------------------------------------

  /** The researcher's search loop: at most two searches, hits accumulated in order. */
  method SearchAll(svc: Services, subqs: seq<Json>) returns (aggregated: seq<Json>)
    ensures aggregated == Aggregate(svc, subqs)
  {
    aggregated := [];
    for i := 0 to |subqs|
      invariant aggregated == Aggregate(svc, subqs[..i])
    {
      assert subqs[..i + 1][..i] == subqs[..i];
      aggregated := aggregated + HitsOf(svc.search(SearchRequestFor(svc.env.tavilyApiKey, subqs[i])));
    }
    assert subqs[..|subqs|] == subqs;
  }

  /** The search phase as the researcher performs it. */
  method RunSearchPhase(svc: Services, queries: Json) returns (phase: Result<string>)
    ensures phase == SearchPhase(svc, queries)
  {
    if svc.env.tavilyApiKey == "" {
      return Ok(SearchDisabled);
    }
    var subqs := FirstTwo(queries);
    if subqs.Err? {
      return Err(subqs.error);
    }
    var aggregated := SearchAll(svc, subqs.value);
    if |aggregated| > 0 {
      phase := RenderHits(svc.lib, aggregated);
    } else {
      phase := Ok(NoWebResults);
    }
  }

  /** `webResearcherAgent` against the database. */
  method RunResearcher(db: Store.Database, svc: Services, ctx: Context, q: string) returns (results: string)
    requires db.Valid()
    modifies db
    ensures db.Valid() && db.clock == old(db.clock)
    ensures db.users == old(db.users) && db.cases == old(db.cases) && db.results == old(db.results)
    ensures results == Researcher(svc, ctx, q).output
    ensures db.logs == old(db.logs) + LogRows(|old(db.logs)|, ctx.caseId, Researcher(svc, ctx, q).trace, db.clock)
  {
    ghost var base := db.logs;
    assert base + LogRows(|base|, ctx.caseId, [], db.clock) == base;
    var started := ResearcherStarted(q);
    Record(db, ctx.caseId, base, [], started);
    var phase := RunResearch(svc, ctx, q);
    if phase.Err? {
      assert Researcher(svc, ctx, q).trace == [started] + [ResearcherFailed(q, phase.error)];
      Record(db, ctx.caseId, base, [started], ResearcherFailed(q, phase.error));
      return ResearcherFallback;
    }
    results := phase.value;
    var completed := ResearcherCompleted(q, results);
    assert Researcher(svc, ctx, q).trace == [started] + [completed];
    Record(db, ctx.caseId, base, [started], completed);
  }

  /** The researcher's work between its two log entries: formulate the queries, then search. */
  method RunResearch(svc: Services, ctx: Context, q: string) returns (phase: Result<string>)
    ensures phase == ResearchOutcome(svc, ctx, q)
  {
    var formulation := Ask(svc, [UserMessage(FormulationPrompt(ctx, q))]);
    if formulation.Err? {
      return Err(formulation.error);
    }
    var queries := Queries(svc.lib, ReplyContent(formulation.value), q);
    phase := RunSearchPhase(svc, queries);
  }

  /** `researchAssociateAgent` against the database. */
  method RunAssociate(db: Store.Database, svc: Services, ctx: Context, results: string) returns (output: string)
    requires db.Valid()
    modifies db
    ensures db.Valid() && db.clock == old(db.clock)
    ensures db.users == old(db.users) && db.cases == old(db.cases) && db.results == old(db.results)
    ensures output == Associate(svc, ctx, results).output
    ensures db.logs == old(db.logs) + LogRows(|old(db.logs)|, ctx.caseId, Associate(svc, ctx, results).trace, db.clock)
  {
    ghost var base := db.logs;
    assert base + LogRows(|base|, ctx.caseId, [], db.clock) == base;
    var started := AssociateStarted;
    Record(db, ctx.caseId, base, [], started);
    var synthesis := StageOutput(svc, AssociateMessages(ctx, results));
    if synthesis.Err? {
      Record(db, ctx.caseId, base, [started], AssociateFailed(synthesis.error));
      return svc.lib.stringify(AnalysisFailed(synthesis.error));
    }
    output := synthesis.value;
    Record(db, ctx.caseId, base, [started], AssociateCompleted(output));
  }

  /** `lawyerAgent` against the database. */
  method RunLawyer(db: Store.Database, svc: Services, ctx: Context, synthesis: string) returns (verdict: Result<string>)
    requires db.Valid()
    modifies db
    ensures db.Valid() && db.clock == old(db.clock)
    ensures db.users == old(db.users) && db.cases == old(db.cases) && db.results == old(db.results)
    ensures verdict == Lawyer(svc, ctx, synthesis).verdict
    ensures db.logs == old(db.logs) + LogRows(|old(db.logs)|, ctx.caseId, Lawyer(svc, ctx, synthesis).trace, db.clock)
  {
    ghost var base := db.logs;
    assert base + LogRows(|base|, ctx.caseId, [], db.clock) == base;
    var started := LawyerStarted;
    Record(db, ctx.caseId, base, [], started);
    verdict := StageOutput(svc, LawyerMessages(ctx, synthesis));
    if verdict.Ok? {
      Record(db, ctx.caseId, base, [started], LawyerCompleted(verdict.value));
    }
  }

  /** `executeLegalResearchWorkflow` against the database. */
  method RunWorkflow(db: Store.Database, svc: Services, caseId: int, query: string, description: Option<string>)
    returns (outcome: WorkflowResult)
    requires db.Valid()
    modifies db
    ensures db.Valid() && db.clock == old(db.clock)
    ensures db.users == old(db.users) && db.cases == old(db.cases) && db.results == old(db.results)
    ensures outcome == Workflow(svc, caseId, query, description).outcome
    ensures db.logs == old(db.logs) + LogRows(|old(db.logs)|, caseId, Workflow(svc, caseId, query, description).trace, db.clock)
  {
    ghost var base := db.logs;
    ghost var time := db.clock;
    var ctx := Context(caseId, query, description);
    assert base + LogRows(|base|, caseId, [], db.clock) == base;
    var initiated := Initiated(query);
    Record(db, caseId, base, [], initiated);
    ghost var t0 := [] + [initiated];

    ghost var rt := Researcher(svc, ctx, query).trace;
    ghost var before := db.logs;
    var searchResults := RunResearcher(db, svc, ctx, query);
    FollowedBy(base, caseId, t0, rt, before, db.logs, time);
    ghost var t1 := t0 + rt;

    ghost var st := Associate(svc, ctx, searchResults).trace;
    before := db.logs;
    var synthesis := RunAssociate(db, svc, ctx, searchResults);
    FollowedBy(base, caseId, t1, st, before, db.logs, time);
    ghost var t2 := t1 + st;

    ghost var vt := Lawyer(svc, ctx, synthesis).trace;
    before := db.logs;
    var verdict := RunLawyer(db, svc, ctx, synthesis);
    FollowedBy(base, caseId, t2, vt, before, db.logs, time);
    assert t2 + vt == Workflow(svc, caseId, query, description).trace;

    if verdict.Ok? {
      outcome := WorkflowResult(true, Some(verdict.value), [], None);
    } else {
      outcome := WorkflowResult(false, None, [], Some(verdict.error));
    }
  }
}
