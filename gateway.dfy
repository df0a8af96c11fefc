/**
 * The model gateway (server/_core/llm.ts): the message and content shapes
 * callers pass in, their normalisation, the choice of provider, the request
 * bodies built for Groq, Gemini and Forge, the key shown in the log line,
 * the Forge URL, and the reply each provider path produces.
 *
 * The HTTP calls themselves are the `Network` oracle: for each request it
 * reports what `fetch` and `resp.json()` came back with.
 */
module Gateway {
  import opened Base
  import opened Js

  // ---------------------------------------------------------------------
  // Messages
  // ---------------------------------------------------------------------

  datatype Role = System | User | Assistant | Tool | Function

  /**
   * A content object. `OtherPart` is an object whose `type` is none of
   * `text`, `image_url` or `file_url`; the declared types rule it out but
   * the code still has a branch for it.
   */
  datatype Part =
    | TextPart(text: string)
    | ImagePart(url: string, detail: Option<string>)
    | FilePart(url: string, mimeType: Option<string>)
    | OtherPart(kind: string)

  /** `MessageContent`: a bare string or a content object. */
  datatype Content = Str(s: string) | Obj(part: Part)

  /** `MessageContent | MessageContent[]`. */
  datatype Body = Single(c: Content) | Many(cs: seq<Content>)

  datatype Message = Message(role: Role, content: Body, name: Option<string>, toolCallId: Option<string>)

  /** The content of a normalised message: a string, or a list of content objects. */
  datatype NormContent = Text(s: string) | Parts(ps: seq<Part>)

  datatype NormMessage = NormMessage(role: Role, name: Option<string>, toolCallId: Option<string>, content: NormContent)

  /** The `type` of `responseFormat` / `response_format`. */
  datatype FormatType = PlainText | JsonObject | JsonSchema

  datatype Provider = Groq | Forge | Gemini | Auto | Demo

  /**
   * `InvokeParams`, restricted to what the code reads: the tool, tool-choice,
   * token-limit and output-schema fields are accepted but never used.
   */
  datatype Params = Params(
    messages: seq<Message>,
    responseFormat: Option<FormatType>,
    responseFormatSnake: Option<FormatType>,
    provider: Option<Provider>,
    geminiKeyOverride: string)

  /** `ensureArray`. */
  function EnsureArray(b: Body): (r: seq<Content>)
    ensures b.Single? ==> r == [b.c]
    ensures b.Many? ==> r == b.cs
  {
    match b
    case Single(c) => [c]
    case Many(cs) => cs
  }

  /** `normalizeContentPart`: a string becomes a text part, the three known parts pass through. */
  function NormalizeContentPart(c: Content): (r: Result<Part>)
    ensures r.Err? <==> c.Obj? && c.part.OtherPart?
    ensures r.Err? ==> r.error == "Unsupported message content part"
    ensures c.Str? ==> r == Ok(TextPart(c.s))
    ensures c.Obj? && !c.part.OtherPart? ==> r == Ok(c.part)
  {
    match c
    case Str(s) => Ok(TextPart(s))
    case Obj(p) => if p.OtherPart? then Err("Unsupported message content part") else Ok(p)
  }

  /** Normalising an already normalised part changes nothing. */
  lemma NormalizeContentPartIdempotent(c: Content)
    requires NormalizeContentPart(c).Ok?
    ensures NormalizeContentPart(Obj(NormalizeContentPart(c).value)) == NormalizeContentPart(c)
  {
  }

  /** `.map(normalizeContentPart)`: the first unsupported part raises. */
  function NormalizeParts(cs: seq<Content>): (r: Result<seq<Part>>)
    ensures r.Ok? <==> forall i :: 0 <= i < |cs| ==> NormalizeContentPart(cs[i]).Ok?
    ensures r.Ok? ==> |r.value| == |cs| && forall i :: 0 <= i < |cs| ==> r.value[i] == NormalizeContentPart(cs[i]).value
    ensures r.Err? ==> r.error == "Unsupported message content part"
  {
    if cs == [] then Ok([])
    else
      match NormalizeContentPart(cs[0])
      case Err(e) => Err(e)
      case Ok(p) =>
        match NormalizeParts(cs[1..])
        case Err(e) => Err(e)
        case Ok(ps) => Ok([p] + ps)
  }

  /** The JSON object a content part is, as `JSON.stringify` sees it. */
  function PartJson(p: Part): Json {
    match p
    case TextPart(t) => JObj(map["type" := JStr("text"), "text" := JStr(t)])
    case ImagePart(url, detail) =>
      var inner := map["url" := JStr(url)];
      JObj(map["type" := JStr("image_url"),
               "image_url" := JObj(if detail.Some? then inner["detail" := JStr(detail.value)] else inner)])
    case FilePart(url, mime) =>
      var inner := map["url" := JStr(url)];
      JObj(map["type" := JStr("file_url"),
               "file_url" := JObj(if mime.Some? then inner["mime_type" := JStr(mime.value)] else inner)])
    case OtherPart(kind) => JObj(map["type" := JStr(kind)])
  }

  /** A list of content parts as a JSON array. */
  function PartsJson(ps: seq<Part>): (r: Json)
    ensures r.JArr? && |r.items| == |ps|
    ensures forall i :: 0 <= i < |ps| ==> r.items[i] == PartJson(ps[i])
  {
    JArr(seq(|ps|, i requires 0 <= i < |ps| => PartJson(ps[i])))
  }

  /** A tool or function message's piece of content: strings as they are, objects stringified. */
  function ToolPieceText(lib: JsLib, c: Content): (r: string)
    ensures c.Str? ==> r == c.s
    ensures c.Obj? ==> r == lib.stringify(PartJson(c.part))
  {
    match c
    case Str(s) => s
    case Obj(p) => lib.stringify(PartJson(p))
  }

  /** The pieces of a tool message's content, one string per element, joined by newlines. */
  function ToolText(lib: JsLib, cs: seq<Content>): (r: string)
    ensures r == Join(seq(|cs|, i requires 0 <= i < |cs| => ToolPieceText(lib, cs[i])), "\n")
    ensures (forall i :: 0 <= i < |cs| ==> cs[i].Str?) ==> r == Join(StringsOf(cs), "\n")
  {
    var pieces := seq(|cs|, i requires 0 <= i < |cs| => ToolPieceText(lib, cs[i]));
    assert (forall i :: 0 <= i < |cs| ==> cs[i].Str?) ==> pieces == StringsOf(cs);
    Join(pieces, "\n")
  }

  /** The strings of a content list made of strings only. */
  function StringsOf(cs: seq<Content>): seq<string>
    requires forall i :: 0 <= i < |cs| ==> cs[i].Str?
  {
    seq(|cs|, i requires 0 <= i < |cs| => cs[i].s)
  }

  /**
   * `normalizeMessage`. Tool and function messages keep `name` and
   * `tool_call_id` and get their parts joined into one string; every other
   * role drops `tool_call_id` and collapses a lone text part to its text.
   */
  function NormalizeMessage(lib: JsLib, m: Message): (r: Result<NormMessage>)
    ensures (m.role == Tool || m.role == Function) ==>
      && r.Ok?
      && r.value == NormMessage(m.role, m.name, m.toolCallId, Text(ToolText(lib, EnsureArray(m.content))))
    ensures m.role != Tool && m.role != Function ==>
      && (r.Ok? <==> NormalizeParts(EnsureArray(m.content)).Ok?)
      && (r.Ok? ==> r.value.role == m.role && r.value.name == m.name && r.value.toolCallId == None)
      && (r.Ok? ==> var ps := NormalizeParts(EnsureArray(m.content)).value;
            if |ps| == 1 && ps[0].TextPart? then r.value.content == Text(ps[0].text)
            else r.value.content == Parts(ps))
  {
    if m.role == Tool || m.role == Function then
      Ok(NormMessage(m.role, m.name, m.toolCallId, Text(ToolText(lib, EnsureArray(m.content)))))
    else
      match NormalizeParts(EnsureArray(m.content))
      case Err(e) => Err(e)
      case Ok(ps) =>
        if |ps| == 1 && ps[0].TextPart? then Ok(NormMessage(m.role, m.name, None, Text(ps[0].text)))
        else Ok(NormMessage(m.role, m.name, None, Parts(ps)))
  }

  // ---------------------------------------------------------------------
  // Gemini mapping
  // ---------------------------------------------------------------------

  /** The text Gemini gets from one element of a content list. */
  function PieceText(c: Content): (r: string)
    ensures c.Str? ==> r == c.s
    ensures c.Obj? && c.part.TextPart? ==> r == c.part.text
    ensures c.Obj? && !c.part.TextPart? ==> r == ""
  {
    match c
    case Str(s) => s
    case Obj(TextPart(t)) => t
    case Obj(_) => ""
  }

  function PiecesText(cs: seq<Content>): seq<string>
    ensures |PiecesText(cs)| == |cs|
  {
    seq(|cs|, i requires 0 <= i < |cs| => PieceText(cs[i]))
  }

  /** `normalizeMessageContentForGemini`. */
  function GeminiText(b: Body): (r: string)
    ensures b.Single? && b.c.Str? ==> r == b.c.s
    ensures b.Many? ==> r == Join(PiecesText(b.cs), "\n")
    ensures b.Single? && b.c.Obj? ==> r == (if b.c.part.TextPart? then b.c.part.text else "")
  {
    match b
    case Single(Str(s)) => s
    case Many(cs) => Join(PiecesText(cs), "\n")
    case Single(Obj(p)) => if p.TextPart? then p.text else ""
  }

  /** The text of a normalised content: a string as it is, parts by their texts joined with "\n". */
  function FlatText(c: NormContent): string {
    match c
    case Text(s) => s
    case Parts(ps) => Join(seq(|ps|, i requires 0 <= i < |ps| => if ps[i].TextPart? then ps[i].text else ""), "\n")
  }

  /**
   * For every role but tool and function, Gemini's flattening of the raw
   * content and the text of the normalised content agree whenever
   * normalisation succeeds.
   */
  lemma {:induction false} GeminiTextAgreesWithNormalized(lib: JsLib, m: Message)
    requires m.role != Tool && m.role != Function
    requires NormalizeMessage(lib, m).Ok?
    ensures GeminiText(m.content) == FlatText(NormalizeMessage(lib, m).value.content)
  {
    var cs := EnsureArray(m.content);
    var ps := NormalizeParts(cs).value;
    var texts := seq(|ps|, i requires 0 <= i < |ps| => if ps[i].TextPart? then ps[i].text else "");
    assert texts == PiecesText(cs) by {
      forall i | 0 <= i < |cs| ensures texts[i] == PiecesText(cs)[i] {
        assert ps[i] == NormalizeContentPart(cs[i]).value;
      }
    }
    if m.content.Single? {
      assert PiecesText(cs) == [PieceText(m.content.c)];
    }
  }

  /** Gemini's role: user and system messages speak as "user", all others as "model". */
  function GeminiRole(role: Role): (r: string)
    ensures r == "user" <==> role == User || role == System
    ensures r == "model" <==> role != User && role != System
  {
    if role == User || role == System then "user" else "model"
  }

  /**
   * The `responseMimeType` sent to Gemini. Only the camel-case `json_object`
   * and the snake-case `json_schema` ask for JSON.
   */
  function MimeType(p: Params): (r: string)
    ensures r == "application/json" <==> p.responseFormat == Some(JsonObject) || p.responseFormatSnake == Some(JsonSchema)
    ensures r == "text/plain" <==> !(p.responseFormat == Some(JsonObject) || p.responseFormatSnake == Some(JsonSchema))
  {
    if p.responseFormat == Some(JsonObject) || p.responseFormatSnake == Some(JsonSchema) then "application/json"
    else "text/plain"
  }

  /** The snake-case `json_object` every agent passes does not ask Gemini for JSON. */
  lemma SnakeJsonObjectIsPlainText(p: Params)
    requires p.responseFormat.None? && p.responseFormatSnake == Some(JsonObject)
    ensures MimeType(p) == "text/plain"
  {
  }

  datatype GeminiTurn = GeminiTurn(role: string, text: string)

  datatype GeminiRequest = GeminiRequest(
    contents: seq<GeminiTurn>,
    temperature: real,
    maxOutputTokens: int,
    responseMimeType: string)

  /** The Gemini request body: one turn per message, each with a single text part. */
  function GeminiBody(p: Params): (r: GeminiRequest)
    ensures |r.contents| == |p.messages|
    ensures forall i :: 0 <= i < |p.messages| ==>
      r.contents[i] == GeminiTurn(GeminiRole(p.messages[i].role), GeminiText(p.messages[i].content))
    ensures r.temperature == 0.2 && r.maxOutputTokens == 8192
    ensures r.responseMimeType == MimeType(p)
  {
    var turns := seq(|p.messages|, i requires 0 <= i < |p.messages| =>
      GeminiTurn(GeminiRole(p.messages[i].role), GeminiText(p.messages[i].content)));
    GeminiRequest(turns, 0.2, 8192, MimeType(p))
  }

  const GeminiModel: string := "gemini-2.5-flash"

  /** The Gemini endpoint with the key in its query string. */
  function GeminiUrl(key: string): (r: string)
    ensures EndsWith(r, "?key=" + key)
  {
    var base := "https://generativelanguage.googleapis.com" + "/v1beta/models/" + GeminiModel + ":generateContent";
    var r := base + "?key=" + key;
    assert r[|r| - |"?key=" + key|..] == "?key=" + key;
    r
  }

  /**
   * `v?.[0]`: `undefined` for `undefined` and `null`, an array's first item,
   * a string's first character, an object's "0" field, and `undefined` for
   * a number or boolean.
   */
  function First(v: Option<Json>): (r: Option<Json>)
    ensures v.None? || v == Some(JNull) ==> r.None?
    ensures v.Some? && v.value.JArr? ==> (r.Some? <==> |v.value.items| > 0)
    ensures v.Some? && v.value.JArr? && |v.value.items| > 0 ==> r == Some(v.value.items[0])
    ensures v.Some? && v.value.JObj? ==> r == Get(v.value, "0")
    ensures v.Some? && v.value.JStr? ==> (r.Some? <==> v.value.s != "")
    ensures v.Some? && v.value.JStr? && v.value.s != "" ==> r == Some(JStr([v.value.s[0]]))
    ensures v.Some? && (v.value.JNum? || v.value.JBool?) ==> r.None?
  {
    match v
    case None => None
    case Some(JArr(items)) => if |items| > 0 then Some(items[0]) else None
    case Some(JStr(s)) => if s != "" then Some(JStr([s[0]])) else None
    case Some(JObj(_)) => Get(v.value, "0")
    case Some(_) => None
  }

  function Field(v: Option<Json>, key: string): (r: Option<Json>)
    ensures v.None? ==> r.None?
  {
    if v.Some? then Get(v.value, key) else None
  }

  /**
   * `data.candidates?.[0]?.content?.parts?.[0]?.text || ""`: the path's
   * value when it is truthy, otherwise the empty string.
   */
  function CandidateText(data: Json): (r: Json)
    ensures Truthy(r) || r == JStr("")
    ensures var t := Field(First(Field(Field(First(Get(data, "candidates")), "content"), "parts")), "text");
      (Present(t) ==> r == t.value) && (!Present(t) ==> r == JStr(""))
  {
    var t := Field(First(Field(Field(First(Get(data, "candidates")), "content"), "parts")), "text");
    if Present(t) then t.value else JStr("")
  }

  /** Optional indexing reads the "0" key of an object, so an object in place of either array works too. */
  lemma CandidateTextOfIndexedObject(text: string)
    requires text != ""
    ensures CandidateText(JObj(map["candidates" := JObj(map["0" := JObj(map["content" := JObj(map["parts" := JObj(map["0" := JObj(map["text" := JStr(text)])])])])])])) == JStr(text)
  {
  }

  /** A reply carrying the usual candidate structure yields its text. */
  lemma CandidateTextOfReply(text: string)
    requires text != ""
    ensures CandidateText(JObj(map["candidates" := JArr([JObj(map["content" := JObj(map["parts" := JArr([JObj(map["text" := JStr(text)])])])])])])) == JStr(text)
  {
  }

  // ---------------------------------------------------------------------
  // Groq and Forge bodies
  // ---------------------------------------------------------------------

  datatype GroqMessage = GroqMessage(role: Role, content: string)

  datatype ChatRequest<M> = ChatRequest(model: string, messages: seq<M>, maxTokens: int)

  /** A normalised message as Groq gets it: content lists are sent as their JSON text. */
  function GroqMessageOf(lib: JsLib, nm: NormMessage): (r: GroqMessage)
    ensures r.role == nm.role
    ensures nm.content.Text? ==> r.content == nm.content.s
    ensures nm.content.Parts? ==> r.content == lib.stringify(PartsJson(nm.content.ps))
  {
    match nm.content
    case Text(s) => GroqMessage(nm.role, s)
    case Parts(ps) => GroqMessage(nm.role, lib.stringify(PartsJson(ps)))
  }

  /** Normalise every message, raising on the first failure. */
  function NormalizeAll(lib: JsLib, ms: seq<Message>): (r: Result<seq<NormMessage>>)
    ensures r.Ok? <==> forall i :: 0 <= i < |ms| ==> NormalizeMessage(lib, ms[i]).Ok?
    ensures r.Ok? ==> |r.value| == |ms| && forall i :: 0 <= i < |ms| ==> r.value[i] == NormalizeMessage(lib, ms[i]).value
  {
    if ms == [] then Ok([])
    else
      match NormalizeMessage(lib, ms[0])
      case Err(e) => Err(e)
      case Ok(m) =>
        match NormalizeAll(lib, ms[1..])
        case Err(e) => Err(e)
        case Ok(rest) => Ok([m] + rest)
  }

  const GroqModel: string := "llama-3.1-8b-instant"
  const ForgeModel: string := "manus-1"

  /** The Groq request body. */
  function GroqBody(lib: JsLib, p: Params): (r: Result<ChatRequest<GroqMessage>>)
    ensures r.Ok? <==> NormalizeAll(lib, p.messages).Ok?
    ensures r.Ok? ==> r.value.model == GroqModel && r.value.maxTokens == 4096
    ensures r.Ok? ==> |r.value.messages| == |p.messages|
    ensures r.Ok? ==> forall i :: 0 <= i < |p.messages| ==>
      r.value.messages[i] == GroqMessageOf(lib, NormalizeMessage(lib, p.messages[i]).value)
  {
    match NormalizeAll(lib, p.messages)
    case Err(e) => Err(e)
    case Ok(nms) =>
      Ok(ChatRequest(GroqModel, seq(|nms| , i requires 0 <= i < |nms| => GroqMessageOf(lib, nms[i])), 4096))
  }

  /** The Forge request body. */
  function ForgeBody(lib: JsLib, p: Params): (r: Result<ChatRequest<NormMessage>>)
    ensures r.Ok? <==> NormalizeAll(lib, p.messages).Ok?
    ensures r.Ok? ==> r.value.model == ForgeModel && r.value.maxTokens == 4096 && |r.value.messages| == |p.messages|
    ensures r.Ok? ==> r.value.messages == NormalizeAll(lib, p.messages).value
    ensures r.Ok? ==> forall i :: 0 <= i < |p.messages| ==>
      r.value.messages[i] == NormalizeMessage(lib, p.messages[i]).value
  {
    match NormalizeAll(lib, p.messages)
    case Err(e) => Err(e)
    case Ok(nms) => Ok(ChatRequest(ForgeModel, nms, 4096))
  }

  // ---------------------------------------------------------------------
  // Configuration: provider, Forge URL, key shown in the log line
  // ---------------------------------------------------------------------

  /**
   * The provider used: an explicit one other than `auto` as given, otherwise
   * the first configured of Gemini, Groq and Forge, and the demo reply when
   * no key is set.
   */
  function SelectProvider(requested: Option<Provider>, env: Env): (r: Provider)
    ensures r != Auto
    ensures requested.Some? && requested.value != Auto ==> r == requested.value
    ensures (requested.None? || requested.value == Auto) ==>
      && (r == Gemini <==> env.geminiApiKey != "")
      && (r == Groq <==> env.geminiApiKey == "" && env.groqApiKey != "")
      && (r == Forge <==> env.geminiApiKey == "" && env.groqApiKey == "" && env.forgeApiKey != "")
      && (r == Demo <==> env.geminiApiKey == "" && env.groqApiKey == "" && env.forgeApiKey == "")
  {
    if requested.Some? && requested.value != Auto then requested.value
    else if env.geminiApiKey != "" then Gemini
    else if env.groqApiKey != "" then Groq
    else if env.forgeApiKey != "" then Forge
    else Demo
  }

  const CompletionsPath: string := "/v1/chat/completions"

  /** The Forge endpoint used when no base URL is configured (markdown-link text, kept as it is written). */
  const DefaultForgeUrl: string :=
    "[https://forge.manus.im/v1/chat/completions]" + "(https://forge.manus.im/v1/chat/completions)"

  /** `url.replace(/\/$/, "")`: at most one trailing slash goes. */
  function DropTrailingSlash(url: string): (r: string)
    ensures r == url || r + "/" == url
    ensures EndsWith(url, "/") <==> r != url
  {
    if url != [] && url[|url| - 1] == '/' then
      assert url[..|url| - 1] + "/" == url;
      url[..|url| - 1]
    else url
  }

  /** `resolveApiUrl`: the configured base without one trailing slash, plus the completions path. */
  function ResolveApiUrl(env: Env): (r: string)
    ensures Trim(env.forgeApiUrl) == "" ==> r == DefaultForgeUrl
    ensures Trim(env.forgeApiUrl) != "" ==>
      && EndsWith(r, CompletionsPath)
      && var base := r[..|r| - |CompletionsPath|];
         (base == env.forgeApiUrl && !EndsWith(env.forgeApiUrl, "/")) || base + "/" == env.forgeApiUrl
  {
    if env.forgeApiUrl != "" && |Trim(env.forgeApiUrl)| > 0 then
      var base := DropTrailingSlash(env.forgeApiUrl);
      var r := base + CompletionsPath;
      assert r[..|r| - |CompletionsPath|] == base;
      assert r[|r| - |CompletionsPath|..] == CompletionsPath;
      r
    else
      assert env.forgeApiUrl == "" ==> Trim(env.forgeApiUrl) == "" by {
        if env.forgeApiUrl == "" {
          assert TrimStart("") == "";
          assert TrimEnd("") == "";
        }
      }
      DefaultForgeUrl
  }

  /** `String(process.env.LOG_FULL_KEYS || "").toLowerCase() === "true"`. */
  predicate FullKeys(env: Env) {
    env.logFullKeys.Some? && AsciiLower(env.logFullKeys.value) == "true"
  }

  /**
   * The Gemini key as the log line shows it: "none" when unset, the whole key
   * when full keys are enabled, otherwise at most its first six characters
   * followed by "...".
   */
  function KeyShown(env: Env): (r: string)
    ensures env.geminiApiKey == "" ==> r == "none"
    ensures env.geminiApiKey != "" && FullKeys(env) ==> r == env.geminiApiKey
    ensures env.geminiApiKey != "" && !FullKeys(env) ==>
      && EndsWith(r, "...") && |r| <= 9
      && StartsWith(env.geminiApiKey, r[..|r| - 3])
      && (|env.geminiApiKey| >= 6 ==> |r| == 9)
      && (|env.geminiApiKey| < 6 ==> r == env.geminiApiKey + "...")
      && (|env.geminiApiKey| >= 6 ==> r == env.geminiApiKey[..6] + "...")
  {
    var key := env.geminiApiKey;
    if key == "" then "none"
    else if FullKeys(env) then key
    else
      var n := if |key| < 6 then |key| else 6;
      var r := key[..n] + "...";
      assert r[..|r| - 3] == key[..n];
      assert r[|r| - 3..] == "...";
      r
  }

  // ---------------------------------------------------------------------
  // Replies
  // ---------------------------------------------------------------------

  /** What one HTTP exchange came back with: a raised error, a non-2xx reply, or a parsed 2xx body. */
  datatype HttpReply =
    | Thrown(message: string)
    | NotOk(status: int, statusText: string, text: string)
    | Okay(data: Json)

  /** The three HTTP endpoints. */
  datatype Network = Network(
    groq: (string, ChatRequest<GroqMessage>) -> HttpReply,
    gemini: (string, GeminiRequest) -> HttpReply,
    forge: (string, string, ChatRequest<NormMessage>) -> HttpReply)

  datatype Choice = Choice(index: int, role: Role, content: Json, finishReason: string)

  /**
   * `InvokeResult`: a completion the gateway assembles itself (Gemini, demo),
   * or the JSON body Groq or Forge answered with, passed through as it is.
   */
  datatype Completion =
    | Assembled(id: string, created: int, model: string, choices: seq<Choice>)
    | Passed(data: Json)

  /** The content the demo reply carries: `JSON.stringify` of the fixed verdict object. */
  const DemoContent: string :=
    "{\"summary\":\"Demo Mode\","
    + "\"analysis\":\"No API Key configured.\","
    + "\"recommendation\":\"Check .env\","
    + "\"riskAssessment\":\"None\"}"

  /** The fixed demo reply, stamped with `now` in seconds. */
  function DemoResult(nowMs: nat): (r: Completion)
    ensures r.Assembled? && r.id == "demo" && r.model == "demo-mock"
    ensures r.created * 1000 <= nowMs < (r.created + 1) * 1000
    ensures |r.choices| == 1 && r.choices[0] == Choice(0, Assistant, JStr(DemoContent), "stop")
  {
    Assembled("demo", nowMs / 1000, "demo-mock", [Choice(0, Assistant, JStr(DemoContent), "stop")])
  }

  /** The Gemini reply built from a parsed 2xx body. */
  function GeminiResult(data: Json, nowMs: nat): (r: Completion)
    ensures r.Assembled? && r.model == GeminiModel && r.created == nowMs
    ensures |r.choices| == 1 && r.choices[0] == Choice(0, Assistant, CandidateText(data), "stop")
  {
    Assembled("gemini-" + NatToString(nowMs), nowMs, GeminiModel, [Choice(0, Assistant, CandidateText(data), "stop")])
  }

  /** The TypeError a null Gemini body raises at `data.candidates`. */
  const NullCandidates: string := "Cannot read properties of null" + " (reading 'candidates')"

  /**
   * `invokeLLM`: select the provider, build its request, and turn the reply
   * into a completion or an error. Only a 2xx reply yields a completion.
   */
  function Invoke(env: Env, lib: JsLib, net: Network, p: Params, nowMs: nat): (r: Result<Completion>)
    ensures SelectProvider(p.provider, env) == Demo ==> r == Ok(DemoResult(nowMs))
    ensures SelectProvider(p.provider, env) == Gemini ==>
      var key := if p.geminiKeyOverride != "" then p.geminiKeyOverride else env.geminiApiKey;
      && (key == "" ==> r == Err("Gemini API Key is missing"))
      && (key != "" ==>
            match net.gemini(GeminiUrl(key), GeminiBody(p))
            case Thrown(msg) => r == Err(msg)
            case NotOk(status, _, text) => r == Err("Gemini API Error " + IntToString(status) + ": " + text)
            case Okay(data) => r == (if data == JNull then Err(NullCandidates) else Ok(GeminiResult(data, nowMs))))
    ensures SelectProvider(p.provider, env) == Groq ==>
      match GroqBody(lib, p)
      case Err(e) => r == Err(e)
      case Ok(body) =>
        match net.groq(env.groqApiKey, body)
        case Thrown(msg) => r == Err(msg)
        case NotOk(status, statusText, text) =>
          r == Err("GROQ invoke failed: " + IntToString(status) + " " + statusText + " – " + text)
        case Okay(data) => r == Ok(Passed(data))
    ensures SelectProvider(p.provider, env) == Forge ==>
      match ForgeBody(lib, p)
      case Err(e) => r == Err(e)
      case Ok(body) =>
        match net.forge(ResolveApiUrl(env), env.forgeApiKey, body)
        case Thrown(msg) => r == Err(msg)
        case NotOk(status, _, text) => r == Err("Forge invoke failed: " + IntToString(status) + " - " + text)
        case Okay(data) => r == Ok(Passed(data))
    ensures r.Ok? && SelectProvider(p.provider, env) != Demo ==>
      match SelectProvider(p.provider, env)
      case Groq => r.value.Passed? && GroqBody(lib, p).Ok? && net.groq(env.groqApiKey, GroqBody(lib, p).value) == Okay(r.value.data)
      case Forge => r.value.Passed? && ForgeBody(lib, p).Ok? && net.forge(ResolveApiUrl(env), env.forgeApiKey, ForgeBody(lib, p).value) == Okay(r.value.data)
      case _ => true
  {
    match SelectProvider(p.provider, env)
    case Groq =>
      (match GroqBody(lib, p)
       case Err(e) => Err(e)
       case Ok(body) =>
         match net.groq(env.groqApiKey, body)
         case Thrown(msg) => Err(msg)
         case NotOk(status, statusText, text) =>
           Err("GROQ invoke failed: " + IntToString(status) + " " + statusText + " – " + text)
         case Okay(data) => Ok(Passed(data)))
    case Gemini =>
      var key := if p.geminiKeyOverride != "" then p.geminiKeyOverride else env.geminiApiKey;
      if key == "" then Err("Gemini API Key is missing")
      else
        (match net.gemini(GeminiUrl(key), GeminiBody(p))
         case Thrown(msg) => Err(msg)
         case NotOk(status, _, text) => Err("Gemini API Error " + IntToString(status) + ": " + text)
         case Okay(data) =>
           if data == JNull then Err(NullCandidates)
           else Ok(GeminiResult(data, nowMs)))
    case Forge =>
      (match ForgeBody(lib, p)
       case Err(e) => Err(e)
       case Ok(body) =>
         match net.forge(ResolveApiUrl(env), env.forgeApiKey, body)
         case Thrown(msg) => Err(msg)
         case NotOk(status, _, text) => Err("Forge invoke failed: " + IntToString(status) + " - " + text)
         case Okay(data) => Ok(Passed(data)))
    case _ => Ok(DemoResult(nowMs))
  }
}
