/**
 * The case procedures of the API router (server/routers.ts): the input
 * parsers, `cases.create`, `cases.execute` (which runs the pipeline and
 * settles the case's status and stored verdict), and `results.export`
 * (JSON or Markdown).
 */
module Controller {
  import opened Base
  import opened Js
  import opened Store
  import Pipeline
  import Sanitizer

  // ---------------------------------------------------------------------
  // Input parsers
  // ---------------------------------------------------------------------

  const InvalidInput: string := "Invalid input"

  /**
   * What a value `v || null` becomes when it is bound to a TEXT column:
   * falsy values are null, strings and numbers are stored as text, `true`
   * is refused, and an array or object is left to the driver.
   */
  function BindText(lib: JsLib, o: Option<Json>): (r: Column)
    ensures !Present(o) ==> r == NullColumn
    ensures Present(o) && o.value.JStr? ==> r == TextColumn(o.value.s)
    ensures Present(o) && o.value.JNum? ==> r == TextColumn(lib.sqlText(o.value.n))
    ensures Present(o) && o.value.JBool? ==> r == Unbindable(BindError)
    ensures Present(o) && IsObject(o.value) ==>
      match lib.bindComposite(o.value)
      case Ok(t) => r == TextColumn(t)
      case Err(e) => r == Unbindable(e)
    ensures r.Unbindable? <==> Present(o) && (o.value.JBool? || (IsObject(o.value) && lib.bindComposite(o.value).Err?))
  {
    if !Present(o) then NullColumn
    else
      var v := o.value;
      match v
      case JStr(s) => TextColumn(s)
      case JNum(n) => TextColumn(lib.sqlText(n))
      case JBool(_) => Unbindable(BindError)
      case _ =>
        match lib.bindComposite(v)
        case Ok(t) => TextColumn(t)
        case Err(e) => Unbindable(e)
  }

  /** `String(v || fallback)` of a property read. */
  function StringOr(lib: JsLib, o: Option<Json>, fallback: string): (r: string)
    ensures !Present(o) ==> r == fallback
    ensures Present(o) && o.value.JStr? ==> r == o.value.s
  {
    if Present(o) then ToJsString(lib, o.value) else fallback
  }

  datatype CreateInput = CreateInput(title: string, description: Column, query: string)

  /** The `cases.create` parser: anything but a non-null object is rejected. */
  function ParseCreate(lib: JsLib, v: Json): (r: Result<CreateInput>)
    ensures r.Err? <==> !IsObject(v)
    ensures r.Err? ==> r.error == InvalidInput
    ensures r.Ok? ==>
      && r.value.title == StringOr(lib, Get(v, "title"), "")
      && r.value.description == BindText(lib, Get(v, "description"))
      && r.value.query == StringOr(lib, Get(v, "query"), "")
  {
    if !IsObject(v) then Err(InvalidInput)
    else Ok(CreateInput(StringOr(lib, Get(v, "title"), ""), BindText(lib, Get(v, "description")), StringOr(lib, Get(v, "query"), "")))
  }

  /** The `cases.get` and `cases.execute` parser: `Number(val.caseId)`. */
  function ParseCaseId(lib: JsLib, v: Json): (r: Result<JsNumber>)
    ensures r.Err? <==> !IsObject(v)
    ensures r.Err? ==> r.error == InvalidInput
    ensures r.Ok? ==> r.value == ToNumber(lib, Get(v, "caseId"))
    ensures r.Ok? && Get(v, "caseId").None? ==> RowKey(r.value).None?
  {
    if !IsObject(v) then Err(InvalidInput) else Ok(ToNumber(lib, Get(v, "caseId")))
  }

  datatype ExportFormat = JsonFormat | MarkdownFormat

  datatype ExportInput = ExportInput(caseId: JsNumber, format: ExportFormat)

  /**
   * The `results.export` parser: the format is JSON exactly when
   * `String(format || "markdown")`, lower-cased, is "json".
   */
  function ParseExport(lib: JsLib, v: Json): (r: Result<ExportInput>)
    ensures r.Err? <==> !IsObject(v)
    ensures r.Err? ==> r.error == InvalidInput
    ensures r.Ok? ==> r.value.caseId == ToNumber(lib, Get(v, "caseId"))
    ensures r.Ok? ==> (r.value.format == JsonFormat <==> AsciiLower(StringOr(lib, Get(v, "format"), "markdown")) == "json")
  {
    if !IsObject(v) then Err(InvalidInput)
    else
      var fmt := AsciiLower(StringOr(lib, Get(v, "format"), "markdown"));
      Ok(ExportInput(ToNumber(lib, Get(v, "caseId")), if fmt == "json" then JsonFormat else MarkdownFormat))
  }

  /**
   * An absent format means Markdown; a format name given as a string asks
   * for JSON exactly when it is "json" in any letter case, and every other
   * name, the empty one included, gives Markdown.
   */
  lemma ExportFormats(lib: JsLib, id: Json, name: string)
    ensures ParseExport(lib, JObj(map["caseId" := id])).value.format == MarkdownFormat
    ensures var f := ParseExport(lib, JObj(map["caseId" := id, "format" := JStr(name)])).value.format;
      f == JsonFormat <==> AsciiLower(name) == "json"
    ensures ParseExport(lib, JObj(map["caseId" := id, "format" := JStr("JSON")])).value.format == JsonFormat
    ensures ParseExport(lib, JObj(map["caseId" := id, "format" := JStr("csv")])).value.format == MarkdownFormat
  {
    assert |AsciiLower("markdown")| == 8;
    assert AsciiLower("JSON") == "json";
    assert |AsciiLower("csv")| == 3;
    assert AsciiLower("") == "";
  }

  // ---------------------------------------------------------------------
  // cases.create
  // ---------------------------------------------------------------------

  /**
   * `cases.create`: make sure the demo user exists, then insert the case
   * for that user. The new row's id is never 0, so `insertId || 1` is the
   * id itself; a failed insert is reported with a prefix.
   */
  method CreateCase(db: Database, input: CreateInput) returns (r: Result<int>)
    requires db.Valid()
    modifies db
    ensures db.Valid() && db.clock == old(db.clock)
    ensures db.logs == old(db.logs) && db.results == old(db.results)
    ensures exists k :: 0 <= k < |db.users| && db.users[k].openId == DemoOpenId
    ensures (exists k :: 0 <= k < |old(db.users)| && old(db.users)[k].openId == DemoOpenId) ==> db.users == old(db.users)
    ensures (forall k :: 0 <= k < |old(db.users)| ==> old(db.users)[k].openId != DemoOpenId) ==>
      db.users == old(db.users) + [UserRow(|old(db.users)| + 1, DemoOpenId, Some("Demo User"), Some(DemoOpenId),
                                           Some("local"), Member, db.clock, db.clock, db.clock)]
    ensures input.description.Unbindable? ==>
      r == Err("Failed to create case: " + input.description.message) && db.cases == old(db.cases)
    ensures !input.description.Unbindable? ==>
      && r == Ok(|old(db.cases)| + 1)
      && |db.cases| == |old(db.cases)| + 1
      && db.cases[..|old(db.cases)|] == old(db.cases)
      && var c := db.cases[|old(db.cases)|];
         c.title == input.title && c.query == input.query && c.status == Pending
         && c.description == Stored(input.description)
         && exists k :: 0 <= k < |db.users| && db.users[k].openId == DemoOpenId && db.users[k].id == c.userId
  {
    var userId := db.EnsureDemoUser();
    var created := db.CreateCase(userId, input.title, input.description, input.query);
    if created.Err? {
      return Err("Failed to create case: " + created.error);
    }
    var id := if created.value != 0 then created.value else 1;
    r := Ok(id);
  }

  // ---------------------------------------------------------------------
  // cases.execute: settling the verdict
  // ---------------------------------------------------------------------

  const Fence: string := Sanitizer.Fence
  const JsonTag: string := "json"

  /** `^```json\s*` with the `i` flag: a fence tagged `json` in any letter case. */
  predicate TaggedFence(t: string) {
    |t| >= 7 && t[..3] == Fence && AsciiLower(t[3..7]) == JsonTag
  }

  /** `.replace(/^```json\s*\/i, "")`. */
  function DropTaggedFence(t: string): (r: string)
    ensures TaggedFence(t) ==> r == TrimStart(t[7..])
    ensures !TaggedFence(t) ==> r == t
  {
    if TaggedFence(t) then TrimStart(t[7..]) else t
  }

  /** `.replace(/^```\s*\/i, "")`. */
  function DropOpeningFence(t: string): (r: string)
    ensures StartsWith(t, Fence) ==> r == TrimStart(t[3..])
    ensures !StartsWith(t, Fence) ==> r == t
  {
    if StartsWith(t, Fence) then TrimStart(t[3..]) else t
  }

  /** `` ```\s*$ `` matches at `p`: a fence there with only whitespace after it. */
  predicate ClosingFenceAt(t: string, p: int) {
    0 <= p && p + 3 <= |t| && t[p..p + 3] == Fence && AllSpace(t[p + 3..])
  }

  /** The leftmost position, from `from` on, where the closing-fence pattern matches. */
  function ClosingFence(t: string, from: nat): (r: Option<nat>)
    requires from <= |t|
    ensures r.Some? ==> from <= r.value && ClosingFenceAt(t, r.value)
    ensures r.Some? ==> forall p :: from <= p < r.value ==> !ClosingFenceAt(t, p)
    ensures r.None? ==> forall p :: from <= p <= |t| ==> !ClosingFenceAt(t, p)
    decreases |t| - from
  {
    if from + 3 > |t| then None
    else if ClosingFenceAt(t, from) then Some(from)
    else ClosingFence(t, from + 1)
  }

  /** `.replace(/```\s*$/i, "")`: cut at the leftmost match, if there is one. */
  function DropClosingFence(t: string): (r: string)
    ensures ClosingFence(t, 0).None? ==> r == t
    ensures ClosingFence(t, 0).Some? ==> r == t[..ClosingFence(t, 0).value]
  {
    match ClosingFence(t, 0)
    case None => t
    case Some(p) => t[..p]
  }

  /** The aggressive cleanup of the verdict text before it is parsed. */
  function CleanVerdict(raw: string): string {
    DropClosingFence(DropOpeningFence(DropTaggedFence(Trim(raw))))
  }

  /** Without a fence anywhere, none of the three patterns matches. */
  lemma {:induction false} FenceFreeUntouched(t: string)
    requires Sanitizer.NoFence(t)
    ensures DropClosingFence(DropOpeningFence(DropTaggedFence(t))) == t
  {
    assert !OccursAt(t, Fence, 0);
    assert !TaggedFence(t);
    assert !StartsWith(t, Fence);
    assert ClosingFence(t, 0).None? by {
      forall p | 0 <= p <= |t| ensures !ClosingFenceAt(t, p) {
        assert !OccursAt(t, Fence, p);
      }
    }
  }

  /** The pipeline's verdict never contains a fence, so the cleanup only trims it. */
  lemma {:induction false} CleanVerdictWithoutFence(raw: string)
    requires Sanitizer.NoFence(raw)
    ensures CleanVerdict(raw) == Trim(raw)
  {
    var t := Trim(raw);
    var i :| 0 <= i <= |raw| && OccursAt(raw, t, i);
    assert t == raw[i..i + |t|];
    Sanitizer.NoFenceSlice(raw, i, i + |t|);
    FenceFreeUntouched(t);
  }

  /** The tagged opening fence of `fence + "json" + body + fence` goes, and the trim keeps the body. */
  lemma {:induction false} OpeningOfFencedVerdict(body: string)
    requires body != [] && !IsJsSpace(body[0]) && !IsJsSpace(body[|body| - 1])
    ensures DropTaggedFence(Trim(Fence + JsonTag + body + Fence)) == body + Fence
  {
    var rest := body + Fence;
    var raw := Fence + JsonTag + rest;
    assert Fence + JsonTag + body + Fence == raw;
    TaggedPrefix(rest);
    assert raw[0] == '`';
    assert raw[|raw| - 1] == '`';
    assert !IsJsSpace(raw[0]) && !IsJsSpace(raw[|raw| - 1]);
    TrimStable(raw);
    assert Trim(raw) == raw;
    assert DropTaggedFence(raw) == TrimStart(rest);
    assert rest[0] == body[0];
    TrimStartStable(rest);
  }

  lemma {:induction false} TaggedPrefix(rest: string)
    ensures TaggedFence(Fence + JsonTag + rest)
    ensures (Fence + JsonTag + rest)[7..] == rest
    ensures (Fence + JsonTag + rest)[0] == '`'
    ensures rest != [] ==> (Fence + JsonTag + rest)[|Fence + JsonTag + rest| - 1] == rest[|rest| - 1]
  {
    var raw := Fence + JsonTag + rest;
    assert raw[..3] == Fence && raw[3..7] == JsonTag;
    JsonTagLower();
  }

  lemma JsonTagLower()
    ensures AsciiLower(JsonTag) == JsonTag
  {
    assert AsciiLower(JsonTag)[0] == 'j';
  }

  /** A body free of backticks followed by a fence: the closing pattern matches right after the body. */
  lemma {:induction false} ClosingOfFencedVerdict(body: string)
    requires body != [] && '`' !in body
    ensures DropClosingFence(DropOpeningFence(body + Fence)) == body
  {
    var t := body + Fence;
    assert t[0] == body[0];
    assert !StartsWith(t, Fence);
    assert t[|body|..] == Fence;
    assert ClosingFenceAt(t, |body|) by {
      assert t[|body| + 3..] == [];
    }
    forall p | 0 <= p < |body| ensures !ClosingFenceAt(t, p) {
      assert t[p] == body[p];
    }
    assert ClosingFence(t, 0) == Some(|body|);
    assert t[..|body|] == body;
  }

  /** A fence tagged `json` around a body is removed, leaving the body. */
  lemma FencedVerdict(body: string)
    requires body != [] && '`' !in body
    requires !IsJsSpace(body[0]) && !IsJsSpace(body[|body| - 1])
    ensures CleanVerdict(Fence + JsonTag + body + Fence) == body
  {
    OpeningOfFencedVerdict(body);
    ClosingOfFencedVerdict(body);
  }

  /** The verdict fields the router reads and the fallback object carries. */
  const SummaryKey: string := "summary"
  const AnalysisKey: string := "analysis"
  const RecommendationKey: string := "recommendation"
  const RiskKey: string := "riskAssessment"
  const CitationsKey: string := "citations"

  const FallbackSummary: string := "Automated parsing failed." + " See detailed analysis below."
  const FallbackRecommendation: string := "Please review raw findings."

  /** The object stored when the cleaned verdict does not parse. */
  function FallbackVerdict(clean: string): (r: Json)
    ensures r.JObj? && Get(r, SummaryKey) == Some(JStr(FallbackSummary))
    ensures Get(r, AnalysisKey) == Some(JStr(clean))
    ensures Get(r, RecommendationKey) == Some(JStr(FallbackRecommendation))
    ensures Get(r, RiskKey) == Some(JStr("Unknown"))
    ensures Get(r, CitationsKey) == Some(JArr([]))
    ensures r.fields.Keys == {SummaryKey, AnalysisKey, RecommendationKey, RiskKey, CitationsKey}
  {
    JObj(map[
      SummaryKey := JStr(FallbackSummary),
      AnalysisKey := JStr(clean),
      RecommendationKey := JStr(FallbackRecommendation),
      RiskKey := JStr("Unknown"),
      CitationsKey := JArr([])])
  }

  /** `parsed`: the cleaned verdict parsed, or the fallback object. */
  function ParsedVerdict(lib: JsLib, clean: string): (r: Json)
    ensures lib.parse(clean).Some? ==> r == lib.parse(clean).value
    ensures lib.parse(clean).None? ==> r == FallbackVerdict(clean)
  {
    match lib.parse(clean)
    case Some(v) => v
    case None => FallbackVerdict(clean)
  }

  /** The three non-null columns a verdict fills in its result row. */
  datatype StoredVerdict = StoredVerdict(summary: Column, findings: Column, recommendation: Column)

  /**
   * What `execute` hands to `createResult` for a verdict text: nothing
   * unless `parsed` is a non-null object; otherwise its summary and
   * recommendation (or null) and the whole object stringified.
   */
  function VerdictRow(lib: JsLib, raw: string): (r: Option<StoredVerdict>)
    ensures var parsed := ParsedVerdict(lib, CleanVerdict(raw));
      && (r.Some? <==> IsObject(parsed))
      && (r.Some? ==>
            && r.value.findings == TextColumn(lib.stringify(parsed))
            && r.value.summary == BindText(lib, Get(parsed, SummaryKey))
            && r.value.recommendation == BindText(lib, Get(parsed, RecommendationKey)))
  {
    var parsed := ParsedVerdict(lib, CleanVerdict(raw));
    if IsObject(parsed) then
      Some(StoredVerdict(BindText(lib, Get(parsed, SummaryKey)), TextColumn(lib.stringify(parsed)), BindText(lib, Get(parsed, RecommendationKey))))
    else None
  }

  /** A verdict whose `parsed` is an object is stored with that object's fields. */
  lemma ObjectVerdictRow(lib: JsLib, raw: string, parsed: Json)
    requires parsed == ParsedVerdict(lib, CleanVerdict(raw)) && IsObject(parsed)
    ensures VerdictRow(lib, raw) == Some(StoredVerdict(
      BindText(lib, Get(parsed, SummaryKey)),
      TextColumn(lib.stringify(parsed)),
      BindText(lib, Get(parsed, RecommendationKey))))
  {
  }

  /** A verdict that does not parse is still stored, through the fallback object. */
  lemma UnparsableVerdictStored(lib: JsLib, raw: string)
    requires lib.parse(CleanVerdict(raw)).None?
    ensures VerdictRow(lib, raw) == Some(StoredVerdict(
      TextColumn(FallbackSummary),
      TextColumn(lib.stringify(FallbackVerdict(CleanVerdict(raw)))),
      TextColumn(FallbackRecommendation)))
  {
    var fallback := FallbackVerdict(CleanVerdict(raw));
    ObjectVerdictRow(lib, raw, fallback);
    assert Get(fallback, SummaryKey) == Some(JStr(FallbackSummary));
    assert Get(fallback, RecommendationKey) == Some(JStr(FallbackRecommendation));
    BindNonEmptyText(lib, FallbackSummary);
    BindNonEmptyText(lib, FallbackRecommendation);
  }

  /** A non-empty string binds as itself. */
  lemma BindNonEmptyText(lib: JsLib, s: string)
    requires s != ""
    ensures BindText(lib, Some(JStr(s))) == TextColumn(s)
  {
  }

  /** A verdict parsing to a number, string, boolean or null is not stored at all. */
  lemma NonObjectVerdictNotStored(lib: JsLib, raw: string)
    requires lib.parse(CleanVerdict(raw)).Some? && !IsObject(lib.parse(CleanVerdict(raw)).value)
    ensures VerdictRow(lib, raw).None?
  {
  }

  /** How `execute` leaves a case: its final status, the result row written, and the error raised. */
  datatype Settlement = Settlement(status: Status, stored: Option<StoredVerdict>, error: Option<string>)

  predicate Bindable(v: StoredVerdict) {
    !v.summary.Unbindable? && !v.findings.Unbindable? && !v.recommendation.Unbindable?
  }

  /** The columns `createResult` binds for a verdict, in order; precedents and statutes are null. */
  function VerdictColumns(v: StoredVerdict): (r: seq<Column>)
    ensures FirstUnbindable(r).None? <==> Bindable(v)
  {
    var r := [v.summary, v.findings, NullColumn, NullColumn, v.recommendation];
    assert v.summary in r && v.findings in r && v.recommendation in r;
    r
  }

  /**
   * A verdict's row settles the case: none leaves it `completed` without a
   * result, a bindable one is stored, and one that cannot be bound raises
   * and leaves it `failed`.
   */
  function SettleVerdict(v: Option<StoredVerdict>): (r: Settlement)
    ensures r.stored.Some? ==> r.status == Completed && r.error.None? && Bindable(r.stored.value)
    ensures r.error.Some? ==> r.status == Failed && r.stored.None? && v.Some? && r.error == FirstUnbindable(VerdictColumns(v.value))
    ensures r.stored.Some? <==> v.Some? && Bindable(v.value)
    ensures r.stored.Some? ==> r.stored == v
    ensures r.status == Completed <==> v.None? || Bindable(v.value)
    ensures r.error.Some? <==> v.Some? && !Bindable(v.value)
  {
    match v
    case None => Settlement(Completed, None, None)
    case Some(row) =>
      if Bindable(row) then Settlement(Completed, Some(row), None)
      else Settlement(Failed, None, FirstUnbindable(VerdictColumns(row)))
  }

  /**
   * After the workflow: a failed run leaves the case `failed`; a
   * successful one is settled by its verdict's row.
   */
  function Settle(lib: JsLib, outcome: Pipeline.WorkflowResult): (r: Settlement)
    ensures r.stored.Some? ==> r.status == Completed && r.error.None? && Bindable(r.stored.value)
    ensures r.error.Some? ==> r.status == Failed && r.stored.None? && outcome.success && outcome.result.Some?
    ensures r.error.Some? ==>
      && VerdictRow(lib, outcome.result.value).Some?
      && r.error == FirstUnbindable(VerdictColumns(VerdictRow(lib, outcome.result.value).value))
    ensures !outcome.success || outcome.result.None? ==> r == Settlement(Failed, None, None)
  {
    if !outcome.success || outcome.result.None? then Settlement(Failed, None, None)
    else SettleVerdict(VerdictRow(lib, outcome.result.value))
  }

  /** A successful run is stored exactly when its verdict has a row that binds, and then that row. */
  lemma SettleSucceeded(lib: JsLib, outcome: Pipeline.WorkflowResult)
    requires outcome.success && outcome.result.Some?
    ensures var s := Settle(lib, outcome);
      var v := VerdictRow(lib, outcome.result.value);
      && (s.status == Completed <==> v.None? || Bindable(v.value))
      && (s.stored.Some? <==> v.Some? && Bindable(v.value))
      && (s.stored.Some? ==> s.stored == v)
      && (s.error.Some? <==> v.Some? && !Bindable(v.value))
  {
  }

  /**
   * A case ends `completed` without a result exactly when the workflow
   * succeeded with a verdict that parses to something other than an object.
   */
  lemma CompletedWithoutResult(lib: JsLib, outcome: Pipeline.WorkflowResult)
    requires outcome.success && outcome.result.Some?
    ensures var s := Settle(lib, outcome);
      var parsed := ParsedVerdict(lib, CleanVerdict(outcome.result.value));
      s.status == Completed && s.stored.None? <==> !IsObject(parsed)
  {
    SettleSucceeded(lib, outcome);
  }

  /** `after` is `before` with case `id` given `status`, stamped `now`, and nothing else changed. */
  predicate StatusSet(before: seq<CaseRow>, after: seq<CaseRow>, id: int, status: Status, now: int) {
    && |after| == |before| && 1 <= id <= |before|
    && after[id - 1] == before[id - 1].(status := status, updatedAt := now)
    && forall k :: 0 <= k < |after| && k != id - 1 ==> after[k] == before[k]
  }

  /** Two status updates of the same case at the same time amount to the second. */
  lemma StatusSetTwice(a: seq<CaseRow>, b: seq<CaseRow>, c: seq<CaseRow>, id: int, s1: Status, s2: Status, now: int)
    requires StatusSet(a, b, id, s1, now) && StatusSet(b, c, id, s2, now)
    ensures StatusSet(a, c, id, s2, now)
  {
  }

  /** `updateCaseStatus` on a case that exists. */
  method SetCaseStatus(db: Database, id: int, status: Status)
    requires db.Valid() && 1 <= id <= |db.cases|
    modifies db
    ensures db.Valid() && db.clock == old(db.clock)
    ensures db.users == old(db.users) && db.logs == old(db.logs) && db.results == old(db.results)
    ensures StatusSet(old(db.cases), db.cases, id, status, db.clock)
  {
    db.UpdateCaseStatus(id, status);
  }

  /** The row `createResult` appends for a stored verdict. */
  function VerdictResultRow(id: int, caseId: int, v: StoredVerdict, now: int): ResultRow
    requires Bindable(v)
  {
    ResultRow(id, caseId, Stored(v.summary), Stored(v.findings), None, None, Stored(v.recommendation), now)
  }

  /** The steps of `execute` after the workflow: status, then the verdict row. */
  method SettleCase(db: Database, lib: JsLib, id: int, outcome: Pipeline.WorkflowResult) returns (r: Result<()>)
    requires db.Valid() && 1 <= id <= |db.cases|
    modifies db
    ensures db.Valid() && db.clock == old(db.clock)
    ensures db.users == old(db.users) && db.logs == old(db.logs)
    ensures var s := Settle(lib, outcome);
      && StatusSet(old(db.cases), db.cases, id, s.status, db.clock)
      && (s.stored.None? ==> db.results == old(db.results))
      && (s.stored.Some? ==> db.results == old(db.results) + [VerdictResultRow(|old(db.results)| + 1, id, s.stored.value, db.clock)])
      && (s.error.Some? ==> r == Err(s.error.value))
      && (s.error.None? ==> r == Ok(()))
  {
    if !outcome.success || outcome.result.None? {
      SetCaseStatus(db, id, Failed);
      return Ok(());
    }
    var verdict := VerdictRow(lib, outcome.result.value);
    r := StoreVerdict(db, id, verdict);
  }

  /** `completed`, then `createResult` for the verdict's row, and `failed` again if that raises. */
  method StoreVerdict(db: Database, id: int, verdict: Option<StoredVerdict>) returns (r: Result<()>)
    requires db.Valid() && 1 <= id <= |db.cases|
    modifies db
    ensures db.Valid() && db.clock == old(db.clock)
    ensures db.users == old(db.users) && db.logs == old(db.logs)
    ensures var s := SettleVerdict(verdict);
      && StatusSet(old(db.cases), db.cases, id, s.status, db.clock)
      && (s.stored.None? ==> db.results == old(db.results))
      && (s.stored.Some? ==> db.results == old(db.results) + [VerdictResultRow(|old(db.results)| + 1, id, s.stored.value, db.clock)])
      && (s.error.Some? ==> r == Err(s.error.value))
      && (s.error.None? ==> r == Ok(()))
  {
    SetCaseStatus(db, id, Completed);
    if verdict.None? {
      return Ok(());
    }
    ghost var before := old(db.cases);
    ghost var mid := db.cases;
    var v := verdict.value;
    var written := db.CreateResult(id, v.summary, v.findings, NullColumn, NullColumn, v.recommendation);
    assert written.Err? <==> !Bindable(v);
    if written.Err? {
      SetCaseStatus(db, id, Failed);
      StatusSetTwice(before, mid, db.cases, id, Completed, Failed, db.clock);
      return Err(written.error);
    }
    r := Ok(());
  }

  /** The case a numeric id designates in a valid table. */
  predicate Designates(cases: seq<CaseRow>, key: JsNumber) {
    RowKey(key).Some? && 1 <= RowKey(key).value <= |cases|
  }

  /** `caseData.description || undefined`. */
  function Described(d: Option<string>): (r: Option<string>)
    ensures r.Some? <==> d.Some? && d.value != ""
    ensures r.Some? ==> r == d
  {
    if d.Some? && d.value != "" then d else None
  }

  /** The run of the workflow `execute` starts for a case. */
  function CaseRun(svc: Pipeline.Services, c: CaseRow): Pipeline.WorkflowRun {
    Pipeline.Workflow(svc, c.id, c.query, Described(c.description))
  }

  /**
   * The tables after `execute` ran case `id` at time `now`: the run's trace
   * appended to the log, the case settled, the verdict row appended exactly
   * when stored, and the workflow's result returned unless storing raised.
   */
  predicate Executed(svc: Pipeline.Services, id: int, cases: seq<CaseRow>, logs: seq<LogRow>, results: seq<ResultRow>,
                     cases': seq<CaseRow>, logs': seq<LogRow>, results': seq<ResultRow>, now: int,
                     r: Result<Pipeline.WorkflowResult>)
    requires 1 <= id <= |cases|
  {
    var run := CaseRun(svc, cases[id - 1]);
    var s := Settle(svc.lib, run.outcome);
    && logs' == logs + Pipeline.LogRows(|logs|, id, run.trace, now)
    && StatusSet(cases, cases', id, s.status, now)
    && (s.stored.None? ==> results' == results)
    && (s.stored.Some? ==> results' == results + [VerdictResultRow(|results| + 1, id, s.stored.value, now)])
    && (s.error.Some? ==> r == Err(s.error.value))
    && (s.error.None? ==> r == Ok(run.outcome))
  }

  /**
   * `cases.execute`: an unknown case is rejected untouched. Otherwise the
   * case is marked `processing`, the workflow runs and logs, and the case is
   * settled; the workflow's result is returned unless writing the verdict
   * raised.
   */
  method Execute(db: Database, svc: Pipeline.Services, key: JsNumber) returns (r: Result<Pipeline.WorkflowResult>)
    requires db.Valid()
    modifies db
    ensures db.Valid() && db.clock == old(db.clock) && db.users == old(db.users)
    ensures !Designates(old(db.cases), key) ==>
      r == Err("Case not found") && db.cases == old(db.cases) && db.logs == old(db.logs) && db.results == old(db.results)
    ensures Designates(old(db.cases), key) ==>
      Executed(svc, RowKey(key).value, old(db.cases), old(db.logs), old(db.results), db.cases, db.logs, db.results, db.clock, r)
  {
    var id := RowKey(key);
    if id.None? {
      return Err("Case not found");
    }
    var caseData := db.GetCaseById(id.value);
    if caseData.None? {
      return Err("Case not found");
    }
    assert caseData.value == db.cases[id.value - 1];
    r := ExecuteCase(db, svc, id.value, caseData.value);
  }

  /** `execute` on the case found: mark it `processing`, run the workflow, and settle it. */
  method ExecuteCase(db: Database, svc: Pipeline.Services, id: int, c: CaseRow) returns (r: Result<Pipeline.WorkflowResult>)
    requires db.Valid() && 1 <= id <= |db.cases| && c == db.cases[id - 1]
    modifies db
    ensures db.Valid() && db.clock == old(db.clock) && db.users == old(db.users)
    ensures Executed(svc, id, old(db.cases), old(db.logs), old(db.results), db.cases, db.logs, db.results, db.clock, r)
  {
    ghost var start := db.cases;
    ghost var run := CaseRun(svc, c);
    assert c.id == id;
    SetCaseStatus(db, id, Processing);
    var outcome := Pipeline.RunWorkflow(db, svc, id, c.query, Described(c.description));
    assert outcome == run.outcome;
    assert db.logs == old(db.logs) + Pipeline.LogRows(|old(db.logs)|, id, run.trace, db.clock);
    ghost var mid := db.cases;
    var settled := SettleCase(db, svc.lib, id, outcome);
    ghost var s := Settle(svc.lib, outcome);
    StatusSetTwice(start, mid, db.cases, id, Processing, s.status, db.clock);
    if settled.Err? {
      r := Err(settled.error);
    } else {
      r := Ok(outcome);
    }
    assert (s.error.Some? ==> r == Err(s.error.value)) && (s.error.None? ==> r == Ok(run.outcome));
  }

  // ---------------------------------------------------------------------
  // results.export
  // ---------------------------------------------------------------------

  datatype ExportFile = ExportFile(filename: string, mime: string, content: string)

  /** A stored text that is truthy: present and non-empty. */
  predicate Filled(o: Option<string>) {
    o.Some? && o.value != ""
  }

  /** `c.title || \`case-${id}\``. */
  function ExportTitle(c: CaseRow, id: int): (r: string)
    ensures c.title != "" ==> r == c.title
    ensures c.title == "" ==> r == "case-" + IntToString(id)
  {
    if c.title != "" then c.title else "case-" + IntToString(id)
  }

  /** The JSON export: the stored findings, or "{}" when there are none. */
  function JsonExport(c: CaseRow, id: int, r: Option<ResultRow>): (f: ExportFile)
    ensures f.filename == ExportTitle(c, id) + "_verdict.json" && f.mime == "application/json"
    ensures r.Some? && Filled(r.value.findings) ==> f.content == r.value.findings.value
    ensures !(r.Some? && Filled(r.value.findings)) ==> f.content == "{}"
  {
    ExportFile(ExportTitle(c, id) + "_verdict.json", "application/json",
               if r.Some? && Filled(r.value.findings) then r.value.findings.value else "{}")
  }

  const SummaryHeading: string := "Summary"
  const AnalysisHeading: string := "Analysis"
  const RecommendationHeading: string := "Recommendation"
  const HeaderLead: string := "# Research Results: "
  const Blank: string := "\n\n"
  const FindingsHeading: string := "## Findings\n\n"

  function MarkdownHeader(title: string): string {
    HeaderLead + title + Blank
  }

  /** A level-two section: heading, blank line, text, blank line. */
  function Section(heading: string, text: string): (s: string)
    ensures StartsWith(s, "## " + heading + Blank) && EndsWith(s, text + Blank)
  {
    var lead := "## " + heading + Blank;
    var s := lead + (text + Blank);
    assert s[..|lead|] == lead;
    assert s[|s| - |text + Blank|..] == text + Blank;
    s
  }

  /** The summary section, present only when the summary is truthy. */
  function SummarySection(r: Option<ResultRow>): (s: string)
    ensures s == "" <==> !(r.Some? && Filled(r.value.summary))
    ensures s != "" ==> StartsWith(s, "## " + SummaryHeading + Blank) && EndsWith(s, r.value.summary.value + Blank)
  {
    if r.Some? && Filled(r.value.summary) then Section(SummaryHeading, r.value.summary.value) else ""
  }

  /** `## Heading`, present only when the parsed findings carry a truthy field. */
  function FieldSection(lib: JsLib, parsed: Json, heading: string, key: string): (s: string)
    ensures s == "" <==> !Present(Get(parsed, key))
    ensures s != "" ==> StartsWith(s, "## " + heading + Blank) && EndsWith(s, ToJsString(lib, Get(parsed, key).value) + Blank)
  {
    var v := Get(parsed, key);
    if Present(v) then Section(heading, ToJsString(lib, v.value)) else ""
  }

  /** The stored findings, raw, when they cannot be read as an object. */
  function RawFindings(findings: string): string {
    FindingsHeading + findings
  }

  /**
   * The findings sections: Analysis and Recommendation when the findings
   * parse to something other than null, otherwise the raw findings.
   */
  function FindingsSections(lib: JsLib, r: Option<ResultRow>): string {
    if !(r.Some? && Filled(r.value.findings)) then ""
    else
      var findings := r.value.findings.value;
      match lib.parse(findings)
      case Some(parsed) =>
        if parsed == JNull then RawFindings(findings)
        else FieldSection(lib, parsed, AnalysisHeading, AnalysisKey) + FieldSection(lib, parsed, RecommendationHeading, RecommendationKey)
      case None => RawFindings(findings)
  }

  /** The Markdown export of a case and its latest result. */
  function MarkdownExport(lib: JsLib, c: CaseRow, id: int, r: Option<ResultRow>): (f: ExportFile)
    ensures f.filename == ExportTitle(c, id) + ".md" && f.mime == "text/markdown"
    ensures f.content == MarkdownHeader(c.title) + SummarySection(r) + FindingsSections(lib, r)
  {
    ExportFile(ExportTitle(c, id) + ".md", "text/markdown", MarkdownHeader(c.title) + SummarySection(r) + FindingsSections(lib, r))
  }

  /** The Markdown text built up section by section. */
  method RenderMarkdown(lib: JsLib, c: CaseRow, r: Option<ResultRow>) returns (md: string)
    ensures md == MarkdownHeader(c.title) + SummarySection(r) + FindingsSections(lib, r)
    ensures StartsWith(md, MarkdownHeader(c.title))
  {
    ghost var head := MarkdownHeader(c.title);
    ghost var summary := SummarySection(r);
    md := HeaderLead + c.title + Blank;
    if r.Some? && Filled(r.value.summary) {
      md := md + Section(SummaryHeading, r.value.summary.value);
    }
    assert md == head + summary;
    md := AppendFindings(lib, md, r);
    ghost var rest := summary + FindingsSections(lib, r);
    AppendAssociates(head, summary, FindingsSections(lib, r), rest);
    assert md == head + rest;
    assert md[..|head|] == head;
  }

  /** The findings part of the Markdown export, appended to `md`. */
  method AppendFindings(lib: JsLib, md: string, r: Option<ResultRow>) returns (out: string)
    ensures out == md + FindingsSections(lib, r)
  {
    out := md;
    if !(r.Some? && Filled(r.value.findings)) {
      assert FindingsSections(lib, r) == [];
      return;
    }
    var findings := r.value.findings.value;
    var parsed := lib.parse(findings);
    if parsed.None? || parsed.value == JNull {
      assert FindingsSections(lib, r) == RawFindings(findings);
      out := out + RawFindings(findings);
      return;
    }
    var first := FieldSection(lib, parsed.value, AnalysisHeading, AnalysisKey);
    var second := FieldSection(lib, parsed.value, RecommendationHeading, RecommendationKey);
    assert FindingsSections(lib, r) == first + second;
    var analysis := Get(parsed.value, AnalysisKey);
    if Present(analysis) {
      out := out + Section(AnalysisHeading, ToJsString(lib, analysis.value));
    }
    assert out == md + first;
    var recommendation := Get(parsed.value, RecommendationKey);
    if Present(recommendation) {
      out := out + Section(RecommendationHeading, ToJsString(lib, recommendation.value));
    }
    assert out == md + first + second;
    AppendAssociates(md, first, second, first + second);
  }

  /** Unparsable findings end the Markdown export, raw. */
  lemma MarkdownRawFindings(lib: JsLib, c: CaseRow, id: int, r: ResultRow)
    requires Filled(r.findings) && (lib.parse(r.findings.value).None? || lib.parse(r.findings.value) == Some(JNull))
    ensures EndsWith(MarkdownExport(lib, c, id, Some(r)).content, FindingsHeading + r.findings.value)
  {
    var tail := RawFindings(r.findings.value);
    var md := MarkdownExport(lib, c, id, Some(r)).content;
    assert md == (MarkdownHeader(c.title) + SummarySection(Some(r))) + tail;
  }

  /** Parsed findings with an analysis put it in its own section. */
  lemma MarkdownAnalysis(lib: JsLib, c: CaseRow, id: int, r: ResultRow)
    requires Filled(r.findings) && lib.parse(r.findings.value).Some?
    requires Present(Get(lib.parse(r.findings.value).value, AnalysisKey))
    ensures Contains(MarkdownExport(lib, c, id, Some(r)).content,
                     Section(AnalysisHeading, ToJsString(lib, Get(lib.parse(r.findings.value).value, AnalysisKey).value)))
  {
    var parsed := lib.parse(r.findings.value).value;
    var section := Section(AnalysisHeading, ToJsString(lib, Get(parsed, AnalysisKey).value));
    var before := MarkdownHeader(c.title) + SummarySection(Some(r));
    var after := FieldSection(lib, parsed, RecommendationHeading, RecommendationKey);
    assert FindingsSections(lib, Some(r)) == section + after;
    var md := MarkdownExport(lib, c, id, Some(r)).content;
    assert md == before + section + after;
    assert md[|before|..|before| + |section|] == section;
    assert OccursAt(md, section, |before|);
  }

  /** Parsed findings with a recommendation end the export with its section. */
  lemma MarkdownRecommendation(lib: JsLib, c: CaseRow, id: int, r: ResultRow)
    requires Filled(r.findings) && lib.parse(r.findings.value).Some? && lib.parse(r.findings.value) != Some(JNull)
    requires Present(Get(lib.parse(r.findings.value).value, RecommendationKey))
    ensures EndsWith(MarkdownExport(lib, c, id, Some(r)).content,
                     Section(RecommendationHeading, ToJsString(lib, Get(lib.parse(r.findings.value).value, RecommendationKey).value)))
  {
    var parsed := lib.parse(r.findings.value).value;
    var section := Section(RecommendationHeading, ToJsString(lib, Get(parsed, RecommendationKey).value));
    var before := MarkdownHeader(c.title) + SummarySection(Some(r)) + FieldSection(lib, parsed, AnalysisHeading, AnalysisKey);
    assert FindingsSections(lib, Some(r)) == FieldSection(lib, parsed, AnalysisHeading, AnalysisKey) + section;
    var md := MarkdownExport(lib, c, id, Some(r)).content;
    assert md == before + section;
    assert md[|md| - |section|..] == section;
  }

  /** Without a result the Markdown export is the heading alone. */
  lemma MarkdownWithoutResult(lib: JsLib, c: CaseRow, id: int)
    ensures MarkdownExport(lib, c, id, None).content == HeaderLead + c.title + Blank
  {
  }

  /**
   * `results.export`: an unknown case is rejected; otherwise the case's
   * latest result is rendered in the requested format.
   */
  method Export(db: Database, lib: JsLib, input: ExportInput) returns (r: Result<ExportFile>)
    requires db.Valid()
    ensures !Designates(db.cases, input.caseId) ==> r == Err("Case not found")
    ensures Designates(db.cases, input.caseId) ==>
      var id := RowKey(input.caseId).value;
      var latest := LatestResult(db.results, id);
      && (input.format == JsonFormat ==> r == Ok(JsonExport(db.cases[id - 1], id, latest)))
      && (input.format == MarkdownFormat ==> r == Ok(MarkdownExport(lib, db.cases[id - 1], id, latest)))
  {
    var id := RowKey(input.caseId);
    if id.None? {
      return Err("Case not found");
    }
    var c := db.GetCaseById(id.value);
    if c.None? {
      return Err("Case not found");
    }
    assert c.value == db.cases[id.value - 1];
    var latest := db.GetResultByCaseId(id.value);
    var title := if c.value.title != "" then c.value.title else "case-" + IntToString(id.value);
    if input.format == JsonFormat {
      var content := if latest.Some? && Filled(latest.value.findings) then latest.value.findings.value else "{}";
      return Ok(ExportFile(title + "_verdict.json", "application/json", content));
    }
    var md := RenderMarkdown(lib, c.value, latest);
    r := Ok(ExportFile(title + ".md", "text/markdown", md));
  }

  /** Once a verdict is stored, the JSON export returns its findings. */
  lemma ExportAfterStore(c: CaseRow, id: int, rs: seq<ResultRow>, row: ResultRow)
    requires row.caseId == id && Filled(row.findings)
    ensures JsonExport(c, id, LatestResult(rs + [row], id)).content == row.findings.value
  {
    LatestResultAppend(rs, row);
  }
}
