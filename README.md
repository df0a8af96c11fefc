# Legal research pipeline — a Dafny model

This project models the server core of a multi-agent legal research service and
proves properties of it. A user files a case: a title, a description of the facts and
a query. Executing the case runs three agents in order, each working from the one
before it:

- A **web researcher** asks the language model for search queries and runs at most
  two web searches.
- A **research associate** synthesises the facts and the search results.
- A **lawyer** drafts a JSON verdict.

Every agent step is appended to an agent log. The router then marks the case as
completed or failed, stores the parsed verdict as a result row, and exports it as
JSON or Markdown.

The model is split into seven modules:

| file | module | models |
|---|---|---|
| `base.dfy` | `Base` | `Option`/`Result`, the server's settings, and the JavaScript string primitives the core relies on (`trim`, `indexOf`, `lastIndexOf`, global literal `replace`, `join`, number formatting) |
| `js.dfy` | `Js` | parsed JSON values, truthiness, property reads, `String(v)` and `Number(v)`, and the library bundle `JsLib` (`JSON.parse`, `JSON.stringify`, SQLite's rendering of a bound number) |
| `sanitizer.dfy` | `Sanitizer` | `clampText` and `cleanJsonOutput` |
| `gateway.dfy` | `Gateway` | the model gateway `invokeLLM`: message normalisation, provider choice, the Groq, Gemini and Forge request bodies, the Forge URL, the key shown in the log line, and the Gemini and demo replies. The HTTP endpoints are a `Network` oracle. |
| `store.dfy` | `Store` | the SQLite file path, and class `Database` with the users, cases, agent-log and results tables as sequences of rows plus a clock |
| `pipeline.dfy` | `Pipeline` | the three agents and the workflow, each given twice (see below) |
| `controller.dfy` | `Controller` | the router procedures: the input parsers, `cases.create`, `cases.execute` and `results.export` |

Each agent is given twice:

- A function (`Researcher`, `Associate`, `Lawyer`, `Workflow`) states the agent's
  output and the log entries it writes.
- A method (`RunResearcher`, `RunAssociate`, `RunLawyer`, `RunWorkflow`) performs the
  agent against a `Store.Database`. It is proved to return that output and to append
  exactly one log row per entry.

The language model is a function from a stage's messages to a reply.
`Pipeline.Wired` ties it to `Gateway.Invoke` over the network oracle. The search
engine is a function from a search request to a reply.

Four behaviours of the code are easy to expect otherwise. The model follows the
code in each:

- `cleanJsonOutput` is not idempotent on every input whose braces are in order or
  missing. The fence alone gives `""`, and `""` then gives `"{}"`. Reversed braces
  (`"} x {"`) give `" x "`, which a second call trims to `"x"`. `CleanIdempotent`
  states the condition under which the function is idempotent.
- Every agent asks for `response_format: json_object` in the snake-case spelling.
  The Gemini request only asks for JSON for camel-case `json_object` or snake-case
  `json_schema`, so the pipeline always asks Gemini for `text/plain`
  (`SnakeJsonObjectIsPlainText`).
- A completed case need not have a result row. A verdict that parses to a number,
  string, boolean or `null` leaves the case completed with no result row
  (`NonObjectVerdictNotStored`, `CompletedWithoutResult`).
- A verdict's `summary` and `recommendation` go to the database as they are. A
  `true` there is refused by better-sqlite3's binding. An array or object is left to
  the driver (`Js.JsLib.bindComposite`), which either stores a text or raises. When a
  column is refused, `createResult` raises that column's error, the case ends
  `failed` and `execute` raises (`SettleVerdict`, `StoreVerdict`).

## Model

| member | source | states |
|---|---|---|
| Base.Trim | server/agents.ts:22 | the trim occurs inside its input, and it neither starts nor ends with whitespace |
| Base.TrimStable | server/agents.ts:22 | a text that neither starts nor ends with whitespace is its own trim |
| Base.IndexOf | server/agents.ts:24 | -1 exactly when the character is absent; otherwise the first index holding it |
| Base.LastIndexOf | server/agents.ts:25 | -1 exactly when the character is absent; otherwise the last index holding it |
| Base.RemoveAllAbsent | server/agents.ts:22 | deleting a pattern that does not occur leaves the text unchanged |
| Base.RemoveAllSubset | server/agents.ts:22 | deleting a pattern never introduces a character |
| Base.Join | server/agents.ts:93 | joining one part gives that part; joining none gives "" |
| Base.JoinSnoc | server/agents.ts:93 | joining one more part adds the separator and that part to the end |
| Base.JoinLength | server/agents.ts:93 | a joined text is as long as its parts plus one separator between each two |
| Base.NatToString | server/agents.ts:93 | a non-empty string of decimal digits, without a leading zero, whose value is the number |
| Base.AsciiLower | server/routers.ts:155 | lower-casing keeps the length |
| Js.Get | server/routers.ts:50 | a property read yields a value exactly when the value is an object carrying that key, and then the field |
| Js.ToJsString | server/routers.ts:23 | `String(v)` of a string is that string |
| Js.ToNumber | server/routers.ts:50 | `Number(undefined)` is NaN, and `Number` of a number is that number |
| Js.RowKey | server/db.ts:130 | an id matches a row exactly when the number is finite and integral, and then it is that integer |
| Sanitizer.ClampText | server/agents.ts:12-16 | the input comes back unchanged when it is empty or at most `max` long. Otherwise the result is the first `max(0, max-500)` characters followed by the truncation marker, with exactly that length. For `max >= 536` the output is never longer than `max`. |
| Sanitizer.MarkerLength | server/agents.ts:15 | the truncation marker is 36 characters long |
| Sanitizer.ClampWithinBound | server/agents.ts:51 | for both bounds the pipeline uses (20000 and 2000), the clamped text never exceeds the bound, and an over-long text keeps its prefix and ends with the marker |
| Sanitizer.RemoveFencesLeavesNone | server/agents.ts:22 | deleting every ``` left to right leaves no ``` behind |
| Sanitizer.StripFences | server/agents.ts:22 | after fence removal and trim, no fence remains and the text has no surrounding whitespace |
| Sanitizer.StripFencesStable | server/agents.ts:22 | fence removal and trim leave a fence-free, trimmed text alone |
| Sanitizer.JsSubstring | server/agents.ts:27 | `substring` returns a piece of its input: the slice for ordered bounds, and the slice between the swapped bounds for reversed ones |
| Sanitizer.BraceOrder | server/agents.ts:24-26 | some `{` precedes some `}` exactly when the first `{` comes before the last `}` |
| Sanitizer.BraceSlice | server/agents.ts:24-28 | the extracted slice occurs in the stripped text |
| Sanitizer.CleanJsonOutput | server/agents.ts:19-30 | the empty text gives "{}", and no output ever contains a fence |
| Sanitizer.BraceSliceWithoutBraces | server/agents.ts:26 | without a `{` or without a `}` the stripped text is returned as it is |
| Sanitizer.BraceSliceWindow | server/agents.ts:24-28 | when a `{` precedes a `}`, the result is the window from the first `{` to the last `}`: it starts with `{` and ends with `}`, no `{` comes before it and no `}` after it |
| Sanitizer.BraceSliceReversed | server/agents.ts:26-28 | with the braces in reverse order, the result is the brace-free text between the last `}` and the first `{` |
| Sanitizer.CleanJsonOutputCases | server/agents.ts:19-30 | for non-empty input: the stripped text when a brace is missing, the brace window when they are ordered, and brace-free text when they are reversed |
| Sanitizer.CleanIdempotent | server/agents.ts:19-30 | cleaning is idempotent whenever the output is non-empty and the stripped braces are not reversed |
| Sanitizer.BraceSliceIdempotent | server/agents.ts:24-28 | a second clean leaves the brace slice of a fence-free, trimmed text unchanged |
| Sanitizer.FixedPointOfClean | server/agents.ts:19-30 | a fence-free, trimmed text that lacks a brace, or opens with `{` and closes with `}`, is a fixed point |
| Sanitizer.FenceOnlyIsNotIdempotent | server/agents.ts:20-22 | the bare fence cleans to "", and cleaning that gives "{}" |
| Sanitizer.ReversedBracesAreNotIdempotent | server/agents.ts:26-28 | "} x {" cleans to " x ", which cleans to "x" |
| Sanitizer.FencedObjectExample | server/agents.ts:22-28 | a `json`-tagged fence around `{"a":1}` cleans to `{"a":1}` |
| Sanitizer.NoBracesExample | server/agents.ts:24-29 | a text without braces comes back unchanged |
| Gateway.EnsureArray | server/_core/llm.ts:117-119 | a single content becomes a one-element list, and a list stays as it is |
| Gateway.NormalizeContentPart | server/_core/llm.ts:121-131 | a string becomes a text part, text, image and file parts pass through, and any other part raises "Unsupported message content part" |
| Gateway.NormalizeContentPartIdempotent | server/_core/llm.ts:121-131 | normalising an already normalised part changes nothing |
| Gateway.NormalizeParts | server/_core/llm.ts:143 | succeeds exactly when every part normalises, and then gives one normalised part per input part, in order |
| Gateway.PartsJson | server/_core/llm.ts:181 | the JSON form of a part list is an array with one object per part |
| Gateway.ToolPieceText | server/_core/llm.ts:137-139 | a string piece as it is; an object part as `JSON.stringify` of its JSON form |
| Gateway.ToolText | server/_core/llm.ts:137-139 | the pieces of a tool message joined with "\n": strings as they are and object parts JSON-stringified (`ToolPieceText`) |
| Gateway.NormalizeMessage | server/_core/llm.ts:133-148 | tool and function messages always succeed, keep `name` and `tool_call_id`, and carry joined text. Other roles succeed exactly when every part normalises, drop `tool_call_id`, and collapse a lone text part to its text; otherwise they carry the part list. |
| Gateway.PieceText | server/_core/llm.ts:153 | a string as it is, a text part's text, and "" for any other part |
| Gateway.GeminiText | server/_core/llm.ts:150-156 | a string unchanged; a list's piece texts joined with "\n"; a single object's text or "" |
| Gateway.GeminiTextAgreesWithNormalized | server/_core/llm.ts:143-156 | for non-tool roles, Gemini's flattening and the text of the normalised content agree whenever normalisation succeeds |
| Gateway.GeminiRole | server/_core/llm.ts:218 | "user" exactly for user and system messages, "model" for all others |
| Gateway.MimeType | server/_core/llm.ts:228-230 | "application/json" exactly when camel-case `json_object` or snake-case `json_schema` is asked for, else "text/plain" |
| Gateway.SnakeJsonObjectIsPlainText | server/_core/llm.ts:228-230 | the snake-case `json_object` the agents pass asks Gemini for plain text |
| Gateway.GeminiBody | server/_core/llm.ts:217-232 | one turn per message, with the mapped role and flattened text; temperature 0.2, 8192 output tokens, and the MIME type `MimeType` chooses |
| Gateway.GeminiUrl | server/_core/llm.ts:214 | the endpoint carries the key at the end of its query string |
| Gateway.First | server/_core/llm.ts:246 | `?.[0]`: undefined for undefined and null, an array's first item, a string's first character, an object's "0" key, and undefined for a number or boolean |
| Gateway.CandidateText | server/_core/llm.ts:246 | the value at `candidates?.[0]?.content?.parts?.[0]?.text` when it is truthy, otherwise ""; each `?.[0]` indexes as `First` does |
| Gateway.CandidateTextOfReply | server/_core/llm.ts:246 | a reply with the usual candidate structure yields its text |
| Gateway.CandidateTextOfIndexedObject | server/_core/llm.ts:246 | objects keyed "0" in place of the candidate and part arrays still yield the text |
| Gateway.GroqMessageOf | server/_core/llm.ts:179-183 | keeps the role; sends text as it is and a part list as its JSON text |
| Gateway.NormalizeAll | server/_core/llm.ts:179-180 | succeeds exactly when every message normalises, and then gives one normalised message per input message |
| Gateway.GroqBody | server/_core/llm.ts:177-189 | built exactly when every message normalises, with model `llama-3.1-8b-instant`, 4096 tokens, and one mapped message per input message |
| Gateway.ForgeBody | server/_core/llm.ts:262-268 | built exactly when every message normalises, with model `manus-1`, 4096 tokens, and exactly the normalised messages, in order |
| Gateway.SelectProvider | server/_core/llm.ts:164-168 | never `auto`; an explicit provider other than auto is kept; otherwise Gemini, Groq or Forge by the first configured key, else demo, each as an if-and-only-if |
| Gateway.DropTrailingSlash | server/_core/llm.ts:160 | exactly one trailing slash is removed, and only when there is one |
| Gateway.ResolveApiUrl | server/_core/llm.ts:158-161 | the fixed default for a blank configured URL; otherwise that URL with at most one trailing slash removed, followed by `/v1/chat/completions` |
| Gateway.KeyShown | server/_core/llm.ts:171-172 | "none" without a key; the whole key when `LOG_FULL_KEYS` lower-cases to "true"; otherwise the key's first six characters (the whole key when shorter) followed by "..." |
| Gateway.DemoResult | server/_core/llm.ts:287-296 | a single choice (index 0, assistant, "stop") carrying the fixed demo verdict, with the time in whole seconds |
| Gateway.GeminiResult | server/_core/llm.ts:245-258 | a single assistant choice carrying the candidate text, stamped now |
| Gateway.Invoke | server/_core/llm.ts:163-297 | demo gives the fixed reply. Gemini without a key raises "Gemini API Key is missing"; otherwise it raises on a thrown request or non-2xx reply and builds the candidate reply from a 2xx body. Groq and Forge raise when a message does not normalise or the request throws, raise "GROQ invoke failed: …" or "Forge invoke failed: …" with the status and body text on a non-2xx reply, and pass a 2xx body through. |
| Store.ConfiguredUrl | server/db.ts:14 | the configured URL trimmed when it is set, else the process setting trimmed, else ""; never surrounded by whitespace |
| Store.ResolveDatabasePath | server/db.ts:15-29 | "" gives `./local.db`. A `file:` URL loses `file:` and then one leading `//`, and an empty or "." rest gives `./local.db`. Any other URL containing `://` gives `./local.db`, and a plain path is kept as it is. |
| Store.PruneUndefined | server/db.ts:90-95 | exactly the undefined entries are deleted, and every other entry keeps its value |
| Store.UpdateValues | server/db.ts:82-95 | the update record the upsert sends, holding no undefined entry |
| Store.UpdateKeepsIdentity | server/db.ts:97-99 | an update never changes id, open id, role or creation time; it sets both times to now, and it changes the name only when a name is given |
| Store.CasesNewestFirstMembers | server/db.ts:145-147 | a user's case list holds exactly that user's cases |
| Store.CasesNewestFirstSorted | server/db.ts:148 | in a table stamped in insertion order, each user's cases come newest first |
| Store.LogsOfMembers | server/db.ts:223-225 | a case's log list holds exactly that case's rows |
| Store.LogsOfSorted | server/db.ts:226 | in a table stamped in insertion order, each case's log comes in ascending time |
| Store.LogsOfAppend | server/db.ts:239-247 | appending a row extends only its own case's log, by that row |
| Store.LatestResult | server/db.ts:283-289 | the result found belongs to the case; there is none exactly when the case has no result |
| Store.LatestResultAt | server/db.ts:283-289 | the last row of the case found scanning backwards is the latest result |
| Store.LatestResultNewest | server/db.ts:286 | the latest result has the largest id and the latest creation time among the case's results |
| Store.LatestResultAppend | server/db.ts:262-270 | a result just written is the latest of its case; earlier results are nevertheless kept |
| Store.FirstUnbindable | server/db.ts:262-270 | none exactly when every column binds; otherwise the error of the first column, in binding order, that does not |
| Store.Database.CreateCase | server/db.ts:180-210 | appends one pending case stamped now and returns its fresh id, or raises the description's bind error when it cannot be bound. No other table changes and the invariant is kept. |
| Store.Database.UpdateCaseStatus | server/db.ts:212-218 | only the status and update time of the case with that id change |
| Store.Database.GetCaseById | server/db.ts:123-138 | a case is found exactly when one has that id, and it is that row |
| Store.Database.GetUserCases | server/db.ts:140-153 | exactly that user's cases, newest first |
| Store.Database.AddAgentLog | server/db.ts:229-248 | appends exactly one row stamped now, storing absent texts as null; nothing else changes |
| Store.Database.GetAgentLogsByCaseId | server/db.ts:220-227 | exactly that case's rows, in ascending timestamp order |
| Store.Database.CreateResult | server/db.ts:250-276 | appends one row stamped now, or raises the error of the first value that cannot be bound and appends nothing |
| Store.Database.GetResultByCaseId | server/db.ts:278-294 | the case's latest result with the latest creation time and largest id, or nothing when it has none |
| Store.Database.FindUser | server/db.ts:97-99 | the position of the user with that open id, or nothing exactly when none has it |
| Store.Database.UpsertUser | server/db.ts:72-121 | no open id raises and changes nothing. A known user gets the defined fields and fresh times and nothing else changes. An unknown one is appended, as an administrator exactly when it is the owner. |
| Store.Database.RefreshUser | server/db.ts:97-99 | the update branch changes only the user with that open id |
| Store.Database.InsertUser | server/db.ts:102-116 | the insert branch appends one user, an administrator exactly when it is the owner |
| Store.Database.EnsureDemoUser | server/db.ts:158-178 | the demo user exists afterwards and the returned id is its id; it is inserted only when missing, so repeated calls change nothing |
| Pipeline.AskAssembled | server/agents.ts:44-58 | a stage's request is answered by the gateway itself with exactly one choice, and without a Gemini key by the demo reply |
| Pipeline.ReadProperty | server/agents.ts:62 | reading a property of `undefined` or `null` raises; any other value gives the field, or `undefined` |
| Pipeline.ReadFirstItem | server/agents.ts:62 | `v[0]` raises on `undefined` and `null`, and gives an array's first item |
| Pipeline.ReplyContent | server/agents.ts:62 | the content of the first choice of an assembled reply. A passed-through body is read along `choices[0].message.content`, which raises JavaScript's TypeError where it meets `undefined` or `null` |
| Pipeline.PassedReplyContent | server/agents.ts:62 | a chat-completions body yields its first message's content |
| Pipeline.NullMessageRaises | server/agents.ts:62 | a first choice whose message is `null` raises on reading `content` |
| Pipeline.SanitizeContent | server/agents.ts:62 | falsy content cleans to "{}" and a string is cleaned; any other value raises, and the output is fence-free |
| Pipeline.StageOutput | server/agents.ts:144 | a failed model call raises its message, and a stage output never contains a fence |
| Pipeline.DemoStageOutput | server/agents.ts:57 | without a Gemini key every stage sees the cleaned demo verdict |
| Pipeline.OfferedQueries | server/agents.ts:60-66 | model queries are used exactly when the reply was read, cleaned and parsed and its `queries` is truthy |
| Pipeline.Queries | server/agents.ts:60-66 | the offered queries, and `[searchQuery]` when the reply does not parse or has no `queries` |
| Pipeline.Characters | server/agents.ts:73 | iterating a string yields its characters, one per element |
| Pipeline.FirstTwo | server/agents.ts:73 | the first two queries of an array or characters of a string, and a TypeError for anything else |
| Pipeline.HitsOf | server/agents.ts:85-89 | a failed search contributes nothing, and an answered one its `results` array |
| Pipeline.AggregateOfUnavailable | server/agents.ts:71-90 | when every search fails, nothing is aggregated |
| Pipeline.SourceBlock | server/agents.ts:93 | a rendered hit starts with its 1-based `Source [n]: ` header |
| Pipeline.FoundReasoning | server/agents.ts:101 | "Found results" exactly when the results text is longer than 200, else "Found no results" |
| Pipeline.SourceBlocks | server/agents.ts:93 | one block per hit, numbered from 1, in order |
| Pipeline.RenderHits | server/agents.ts:93 | the blocks joined by a blank line; raises exactly when a hit is null |
| Pipeline.RenderHitsHead | server/agents.ts:93 | a rendering of at least one hit starts with `Source [1]: ` |
| Pipeline.SearchPhase | server/agents.ts:68-99 | without a search key, the fixed "Web Search Disabled" text. Otherwise at most two searches: the no-results text when nothing was found, else the rendered hits. |
| Pipeline.ResearchOutcome | server/agents.ts:41-99 | a failed formulation call raises its message; otherwise the search phase on the queries offered or `[searchQuery]` |
| Pipeline.Researcher | server/agents.ts:32-109 | exactly two entries: started, then completed with the results, or failed with the message; a failure yields the fixed fallback text and never raises |
| Pipeline.AtMostTwoSearches | server/agents.ts:60-73 | the researcher searches at most two sub-queries; exactly the user's query when the model call failed, the reply does not parse, or no usable queries are offered; and the first two offered queries when the model offers a list |
| Pipeline.Associate | server/agents.ts:111-152 | exactly two entries: started, then completed with the output or failed with the message. A failure yields the JSON error object with `arguments: ["Analysis failed"]` and never raises. |
| Pipeline.Lawyer | server/agents.ts:154-197 | the verdict is the cleaned, fence-free stage output, or it raises; started is logged, completed only with a verdict, and a failure is never logged |
| Pipeline.StagesInOrder | server/agents.ts:211-221 | the opening entry, then the stages' entries in order, with no failed lawyer entry |
| Pipeline.WorkflowShape | server/agents.ts:199-228 | the trace is the opening entry followed by the researcher's, associate's and lawyer's traces. `success` holds exactly when the lawyer returned a verdict, which is then the result; otherwise the lawyer's message is the error. Seven entries on success and six otherwise: researcher and associate each started, then completed or failed, and never a failed lawyer entry. The returned `logs` is always empty, and the verdict is fence-free. |
| Pipeline.DemoWorkflow | server/agents.ts:199-223 | without a Gemini key the workflow always succeeds with the cleaned demo verdict |
| Pipeline.LogRows | server/db.ts:239-247 | one row per entry, numbered on in order, carrying that entry's fields and the case id |
| Pipeline.LogRowsConcat | server/db.ts:239-247 | the rows of two traces logged one after the other are the rows of both |
| Pipeline.LogRowsOfCase | server/agents.ts:42 | every row a run logs belongs to its case, in trace order, and no other case gets a row |
| Pipeline.SearchAll | server/agents.ts:71-90 | the search loop aggregates every sub-query's hits, in order |
| Pipeline.RunSearchPhase | server/agents.ts:68-99 | performs the search phase and returns `SearchPhase`'s result |
| Pipeline.RunResearch | server/agents.ts:44-99 | performs the formulation and the searches, with `ResearchOutcome`'s result |
| Pipeline.RunResearcher | server/agents.ts:32-109 | returns the researcher's output and appends exactly its two entries as log rows of the case; no other table changes |
| Pipeline.RunAssociate | server/agents.ts:111-152 | returns the associate's output and appends exactly its two entries as log rows; no other table changes |
| Pipeline.RunLawyer | server/agents.ts:154-197 | returns the lawyer's verdict or error and appends exactly its entries; no other table changes |
| Pipeline.RunWorkflow | server/agents.ts:199-228 | returns the workflow's result and appends exactly its whole trace, in order, as log rows of the case; users, cases and results are unchanged |
| Controller.BindText | server/routers.ts:24 | a falsy value binds as null, a string as that text and a number as SQLite's text for it; `true` is refused with the bind error, and an array or object binds as the driver decides |
| Controller.StringOr | server/routers.ts:23 | falsy values give the fallback, and strings are kept |
| Controller.ParseCreate | server/routers.ts:19-27 | rejects exactly the non-objects with "Invalid input"; otherwise it gives the title and query as strings defaulting to "", and the description or null |
| Controller.ParseCaseId | server/routers.ts:59-62 | rejects exactly the non-objects; otherwise it gives `Number(caseId)`, and a missing id matches no row |
| Controller.ParseExport | server/routers.ts:152-157 | rejects exactly the non-objects; the format is JSON exactly when `String(format or "markdown")`, lower-cased, is "json" |
| Controller.ExportFormats | server/routers.ts:155-156 | no format gives Markdown; a string format gives JSON exactly when it lower-cases to "json", so every other name, "" included, gives Markdown |
| Controller.CreateCase | server/routers.ts:28-38 | the demo user is inserted only when missing and the users table is otherwise unchanged. The new pending case carries the input and belongs to the demo user, and its id is returned. A failed insert raises its error with the "Failed to create case: " prefix and adds no case. |
| Controller.DropTaggedFence | server/routers.ts:88 | a leading ```json in any letter case, and the whitespace after it, is removed |
| Controller.DropOpeningFence | server/routers.ts:89 | a leading ```, and the whitespace after it, is removed |
| Controller.ClosingFence | server/routers.ts:90 | the leftmost position of a ``` followed only by whitespace, or none |
| Controller.DropClosingFence | server/routers.ts:90 | the text is cut at the leftmost closing fence, if there is one |
| Controller.FenceFreeUntouched | server/routers.ts:88-90 | a fence-free text is left unchanged by all three patterns |
| Controller.CleanVerdictWithoutFence | server/routers.ts:86-90 | for a fence-free verdict, which is all the pipeline produces, the cleanup is only a trim |
| Controller.FencedVerdict | server/routers.ts:86-90 | a `json`-tagged fence around the body is removed, leaving exactly the body |
| Controller.FallbackVerdict | server/routers.ts:98-104 | exactly five fields: the fallback summary, the cleaned text as analysis, the fallback recommendation, risk assessment "Unknown" and no citations |
| Controller.ParsedVerdict | server/routers.ts:92-105 | the parsed verdict, or the fallback object when it does not parse |
| Controller.VerdictRow | server/routers.ts:107-116 | a row exactly when `parsed` is a non-null object, holding its summary and recommendation (or null) and the whole object stringified |
| Controller.UnparsableVerdictStored | server/routers.ts:92-116 | a verdict that does not parse is still stored, via the fallback object |
| Controller.NonObjectVerdictNotStored | server/routers.ts:107 | a verdict parsing to a non-object writes no row |
| Controller.VerdictColumns | server/routers.ts:108-115 | the columns `createResult` gets for a verdict all bind exactly when the verdict's row is bindable |
| Controller.SettleVerdict | server/routers.ts:80-125 | no row: completed. A bindable row: completed and stored. An unbindable row: failed, raising the first refused column's error. Each case is an if-and-only-if. |
| Controller.Settle | server/routers.ts:79-125 | a failed run is settled `failed` with nothing stored; a stored verdict implies `completed`; an error comes only from a successful run whose verdict row has a refused column, and is that column's error |
| Controller.SettleSucceeded | server/routers.ts:79-116 | a successful run is stored exactly when its verdict has a bindable row, and then that row |
| Controller.CompletedWithoutResult | server/routers.ts:107 | a case ends completed without a result exactly when its verdict parses to a non-object |
| Controller.StatusSetTwice | server/routers.ts:118-123 | two status updates of the same case leave only the second visible |
| Controller.SetCaseStatus | server/routers.ts:70 | the status update of an existing case changes only that case |
| Controller.Described | server/routers.ts:76 | an empty description is passed as undefined |
| Controller.StoreVerdict | server/routers.ts:80-116 | the case's status ends as `SettleVerdict` decides, the row is appended exactly when stored, and the bind error raised is returned |
| Controller.SettleCase | server/routers.ts:79-125 | the case's status ends as `Settle` decides, the row is appended exactly when stored, and the bind error raised is returned |
| Controller.Execute | server/routers.ts:63-126 | an unknown case raises "Case not found" and nothing changes. Otherwise the run's trace is appended to the log and the case ends with the settled status, with only that case changed. The row is appended exactly when stored, and the workflow's result is returned unless storing raised. |
| Controller.ExecuteCase | server/routers.ts:70-125 | for a case that exists: the run's trace is appended to the log, the case ends with the settled status and no other case changes, the row is appended exactly when stored, and the workflow's result is returned unless storing raised |
| Controller.ExportTitle | server/routers.ts:163 | the case's title, or `case-<id>` when it is empty |
| Controller.JsonExport | server/routers.ts:165-171 | `<title>_verdict.json` as `application/json`, holding the stored findings, or "{}" when there are none |
| Controller.MarkdownExport | server/routers.ts:173-184 | `<title>.md` as `text/markdown`: the heading, then the summary section, then the findings sections |
| Controller.SummarySection | server/routers.ts:174 | empty exactly when there is no truthy summary; otherwise the `## Summary` section ending with the summary |
| Controller.FieldSection | server/routers.ts:178-179 | empty exactly when the parsed field is falsy or absent; otherwise its `## <heading>` section ending with the field's text |
| Controller.Section | server/routers.ts:174-179 | a section starts with its `## ` heading and a blank line and ends with its text and a blank line |
| Controller.RenderMarkdown | server/routers.ts:173-184 | the Markdown accumulated section by section equals the export's content, and it starts with the heading |
| Controller.AppendFindings | server/routers.ts:175-183 | appends exactly the findings sections |
| Controller.MarkdownRawFindings | server/routers.ts:180-182 | unparsable findings end the export as `## Findings` followed by the raw text |
| Controller.MarkdownAnalysis | server/routers.ts:178 | a truthy analysis in the findings appears as its own section |
| Controller.MarkdownRecommendation | server/routers.ts:179 | a truthy recommendation in the parsed findings ends the export with its own section |
| Controller.MarkdownWithoutResult | server/routers.ts:173 | without a result the export is the heading alone |
| Controller.Export | server/routers.ts:158-185 | an unknown case raises "Case not found"; otherwise the case's latest result is exported in the requested format |
| Controller.ExportAfterStore | server/routers.ts:162-170 | once a verdict is stored, the JSON export returns its findings |

## Left out

- HTTP: every `fetch` (the Groq, Gemini and Forge calls and the Tavily search) is an oracle result. The payloads are records, not JSON text.
- `JSON.parse`, `JSON.stringify`, `String` of numbers, arrays and objects, `Number` of strings, arrays and objects, and SQLite's number rendering are uninterpreted functions of `Js.JsLib`. Key order in stringified objects is not modelled.
- Js.JsLib: `show` (`String(v)`, and a template's `${v}`) and `toNumber` (`Number(v)`) always return a value. JavaScript raises TypeError "Cannot convert object to primitive value" for a parsed object whose own `toString` key is not a function (for example `{"toString": 0}`), and for an array holding one. The model does not capture those raises.
- Js.ToJsString, Js.ToNumber: total for the same reason; an object with its own `toString` field never raises here.
- Controller.ParseCreate: a `title` or `query` object with its own `toString` field makes the input parser of server/routers.ts:19-27 raise, so no case is created; the model returns `Ok` and `Controller.CreateCase` inserts the case.
- Controller.ParseCaseId: a `caseId` object with its own `toString` field makes `Number(caseId)` raise (server/routers.ts:50, 61); the model computes a key instead.
- Controller.ParseExport: the same holds for `caseId` and `format` at server/routers.ts:155-156.
- Pipeline.RenderHits: a search hit whose `title`, `url` or `content` is such an object makes the template of server/agents.ts:93 raise, so the researcher logs `failed`; the model raises only for a null hit.
- Controller.FieldSection: such an `analysis` or `recommendation` raises inside the `try` of server/routers.ts:176-182, so the export falls back to the raw `## Findings`; the model writes the field's section instead.
- Console logging, the module-level file-system and database setup (server/db.ts:31-53), tRPC plumbing and dynamic `import()` are not modelled.
- Foreign keys and other schema constraints are not modelled. A row id is its position plus one, because rows are never deleted.
- Clocks: `Date.now()` is the `nowMs` parameter of the services, a single value for a whole request, so the Gemini reply's id and creation time share it. The database stamps rows with its `clock` in whole seconds, and `Tick` moves it forward; it does not advance during one request. SQLite leaves the order of rows with equal timestamps open; the model fixes one. The ascending log query keeps insertion order, and the two descending queries (`Store.CasesNewestFirst`, `Store.LatestResult`) put the later insert first.
- The language model is a deterministic function of a stage's messages. The same request within one workflow gets the same answer.
- Unused request fields: tool definitions, tool choice, `maxTokens` and output schemas are accepted by the code but never read, so `Gateway.Params` omits them.
- `toLowerCase` and the `i` regex flag are modelled for ASCII letters only (`Base.AsciiLower`), which covers every string the core compares with.
- Base.RemoveAll: only its length bound is a postcondition; what it removes is stated by `RemoveAllAbsent`, `RemoveAllSubset` and `Sanitizer.RemoveFencesLeavesNone`.
- Binding an array or object to a TEXT column is `Js.JsLib.bindComposite`, one outcome per column. better-sqlite3 spreads an array argument into positional parameters, so an array can shift the parameters of the other columns; that shift is not modelled.
- Lengths count Unicode characters where JavaScript counts UTF-16 code units. A Dafny `string` holds Unicode scalar values, while `length` and `slice` in the code count UTF-16 units. Text outside the Basic Multilingual Plane (an emoji, say) is therefore measured, cut and classified differently, and a slice that splits a surrogate pair cannot be represented. The following lines name the members this affects.
- Sanitizer.ClampText: the `max` test and the `max - 500` prefix count Unicode characters, not UTF-16 units.
- Sanitizer.ClampWithinBound: the bound holds in Unicode characters; for text outside the Basic Multilingual Plane the clamped text can be longer in UTF-16 units.
- Pipeline.FirstTwo: `slice(0, 2)` of a string takes two Unicode characters, where the code takes two UTF-16 units before `for … of` walks them.
- Pipeline.FoundReasoning: the `> 200` threshold counts Unicode characters, not UTF-16 units.
- Gateway.KeyShown: the first six characters are Unicode characters, where `slice(0, 6)` takes six UTF-16 units.
- Controller.CleanVerdict: carries no postcondition of its own; its properties are `Controller.FenceFreeUntouched`, `Controller.CleanVerdictWithoutFence` and `Controller.FencedVerdict`, together with the contracts of the three fence patterns (server/routers.ts:86-90).
- Controller.FindingsSections: carries no postcondition of its own; its properties are `Controller.AppendFindings`, `Controller.MarkdownRawFindings`, `Controller.MarkdownAnalysis` and `Controller.MarkdownRecommendation` (server/routers.ts:175-183).
- Controller.CaseRun: carries no postcondition of its own; it is the workflow call of server/routers.ts:73-77, and `Controller.Execute` and `Controller.ExecuteCase` state what it logs and returns.
- Controller.VerdictResultRow: carries no postcondition of its own; it is the row `createResult` writes (server/routers.ts:108-115), stated by `Controller.StoreVerdict` and `Controller.SettleCase`.
- Pipeline.Workflow: carries no postcondition of its own; its properties are `Pipeline.WorkflowShape` and `Pipeline.DemoWorkflow`.
- Controller.Settle: a successful outcome without a result (which the workflow never produces, by `Pipeline.WorkflowShape`) is settled `failed` without an error. The code would raise from `raw.trim()` there.
- The `cases.get`, `cases.list`, `agentLogs.getByCaseId` and `results.getByCaseId` query bodies are direct calls of `GetCaseById`, `EnsureDemoUser` with `GetUserCases`, `GetAgentLogsByCaseId` and `GetResultByCaseId`. They have no members of their own; their input parser is `Controller.ParseCaseId`.
- `getUserByOpenId` (server/db.ts:55-69) is not called by the core; `FindUser` is its lookup.
- `auth.me` and `auth.logout` are session glue and are not part of this model.
- Concurrent `execute` calls on the same case are not modelled.
