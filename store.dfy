/**
 * The persistence layer (server/db.ts): where the SQLite file lives, and
 * the four tables (users, cases, agentLogs, results) with the inserts,
 * updates and queries the pipeline and the controller rely on.
 *
 * The tables are sequences of rows in insertion order. Rows are never
 * deleted, so the AUTOINCREMENT id of a row is its position plus one.
 * Timestamp columns hold whole seconds (drizzle's `timestamp` mode); the
 * database's clock is the `clock` field, which only moves forward.
 */
module Store {
  import opened Base

  // ---------------------------------------------------------------------
  // Database file path
  // ---------------------------------------------------------------------

  const DefaultDbPath: string := "./local.db"

  /**
   * `(ENV.databaseUrl || process.env.DATABASE_URL || '').trim()`: the first
   * non-empty setting, trimmed.
   */
  function ConfiguredUrl(env: Env): (r: string)
    ensures r != "" ==> !IsJsSpace(r[0]) && !IsJsSpace(r[|r| - 1])
    ensures env.databaseUrl != "" ==> Contains(env.databaseUrl, r) && r == Trim(env.databaseUrl)
    ensures env.databaseUrl == "" && env.processDatabaseUrl.Some? ==>
      r == Trim(env.processDatabaseUrl.value)
    ensures env.databaseUrl == "" && env.processDatabaseUrl.None? ==> r == ""
  {
    if env.databaseUrl != "" then Trim(env.databaseUrl)
    else if env.processDatabaseUrl.Some? then Trim(env.processDatabaseUrl.value)
    else ""
  }

  /**
   * The SQLite file the server opens for the configured URL
   * (`ConfiguredUrl`). A `file:` URL gives the path after the scheme (and
   * after a `//`), any other URL falls back to the default, and a plain
   * path is used as it is.
   */
  method ResolveDatabasePath(configured: string) returns (path: string)
    ensures path != ""
    ensures configured == "" ==> path == DefaultDbPath
    ensures StartsWith(configured, "file:") ==>
      var p := configured[5..];
      var q := if StartsWith(p, "//") then p[2..] else p;
      path == (if q == "" || q == "." then DefaultDbPath else q)
    ensures configured in {"file:", "file:.", "file://", "file://."} ==> path == DefaultDbPath
    ensures !StartsWith(configured, "file:") && Contains(configured, "://") ==> path == DefaultDbPath
    ensures configured != "" && !StartsWith(configured, "file:") && !Contains(configured, "://") ==> path == configured
  {
    if configured == "" {
      path := DefaultDbPath;
    } else if StartsWith(configured, "file:") {
      var p := configured[5..];
      assert configured == "file:" + p;
      if StartsWith(p, "//") {
        assert p == "//" + p[2..];
        p := p[2..];
        assert configured == "file://" + p;
      }
      if p == "" || p == "." {
        p := DefaultDbPath;
      }
      path := p;
    } else if Contains(configured, "://") {
      path := DefaultDbPath;
    } else {
      path := configured;
    }
  }

  // ---------------------------------------------------------------------
  // Rows
  // ---------------------------------------------------------------------

  /** The `status` enum of the cases table. */
  datatype Status = Pending | Processing | Completed | Failed

  datatype UserRole = Member | Admin

  datatype UserRow = UserRow(
    id: int, openId: string, name: Option<string>, email: Option<string>, loginMethod: Option<string>,
    role: UserRole, createdAt: int, updatedAt: int, lastSignedIn: int)

  datatype CaseRow = CaseRow(
    id: int, userId: int, title: string, description: Option<string>, query: string,
    status: Status, createdAt: int, updatedAt: int)

  datatype LogRow = LogRow(
    id: int, caseId: int, agentName: string, action: string,
    input: Option<string>, output: Option<string>, reasoning: Option<string>, timestamp: int)

  datatype ResultRow = ResultRow(
    id: int, caseId: int, summary: Option<string>, findings: Option<string>,
    precedents: Option<string>, statutes: Option<string>, recommendation: Option<string>, createdAt: int)

  /**
   * A JavaScript value as better-sqlite3 binds it to a TEXT column: null,
   * text (numbers arrive already rendered as the text SQLite stores), or a
   * value it refuses to bind, with the error it raises.
   */
  datatype Column = NullColumn | TextColumn(text: string) | Unbindable(message: string)

  /** The error better-sqlite3 raises for a boolean. */
  const BindError: string := "SQLite3 can only bind numbers, strings," + " bigints, buffers, and null"

  function Stored(c: Column): Option<string>
    requires !c.Unbindable?
  {
    if c.TextColumn? then Some(c.text) else None
  }

  /** The error of the first column, in binding order, that cannot be bound. */
  function FirstUnbindable(cols: seq<Column>): (r: Option<string>)
    ensures r.None? <==> forall k :: 0 <= k < |cols| ==> !cols[k].Unbindable?
    ensures r.None? <==> forall c :: c in cols ==> !c.Unbindable?
    ensures r.Some? ==>
      exists k :: 0 <= k < |cols| && cols[k] == Unbindable(r.value) && forall j :: 0 <= j < k ==> !cols[j].Unbindable?
  {
    if cols == [] then None
    else if cols[0].Unbindable? then Some(cols[0].message)
    else
      var r := FirstUnbindable(cols[1..]);
      if r.None? then r
      else
        var k :| 0 <= k < |cols[1..]| && cols[1..][k] == Unbindable(r.value)
          && forall j :: 0 <= j < k ==> !cols[1..][j].Unbindable?;
        assert cols[k + 1] == Unbindable(r.value);
        r
  }

  /** A field of `upsertUser`'s argument: left out, `null`, or a string. */
  datatype Field = Undefined | Null | Given(s: string)

  datatype UserInput = UserInput(openId: string, name: Field, email: Field, loginMethod: Field)

  /** A value of `upsertUser`'s `updateValues` record. */
  datatype UpdateValue = Unset | NullValue | TextValue(s: string) | TimeValue(t: int)

  function FieldValue(f: Field): UpdateValue {
    match f
    case Undefined => Unset
    case Null => NullValue
    case Given(s) => TextValue(s)
  }

  /** `user.name ?? null`. */
  function OrNull(f: Field): Option<string> {
    if f.Given? then Some(f.s) else None
  }

  /** The record without its `undefined` entries. */
  function Defined(m: map<string, UpdateValue>): map<string, UpdateValue> {
    map k | k in m && m[k] != Unset :: m[k]
  }

  /**
   * The `Object.keys(updateValues).forEach(... delete ...)` loop: every
   * `undefined` entry goes, every other entry stays as it was.
   */
  method PruneUndefined(values: map<string, UpdateValue>, keys: seq<string>) returns (pruned: map<string, UpdateValue>)
    requires forall k :: k in values <==> k in keys
    requires forall i, j :: 0 <= i < j < |keys| ==> keys[i] != keys[j]
    ensures pruned == Defined(values)
    ensures forall k :: k in pruned ==> pruned[k] != Unset
  {
    pruned := values;
    var i := 0;
    while i < |keys|
      invariant 0 <= i <= |keys|
      invariant forall k :: k in pruned <==> k in values && (k in keys[i..] || values[k] != Unset)
      invariant forall k :: k in pruned ==> pruned[k] == values[k]
    {
      var key := keys[i];
      assert key in keys[i..];
      if pruned[key] == Unset {
        pruned := pruned - {key};
      }
      assert forall k :: k in keys[i..] ==> k == key || k in keys[i + 1..];
      i := i + 1;
    }
  }

  function TextOf(v: UpdateValue, otherwise: Option<string>): Option<string> {
    match v
    case TextValue(s) => Some(s)
    case NullValue => None
    case _ => otherwise
  }

  function TimeOf(v: UpdateValue, otherwise: int): int {
    if v.TimeValue? then v.t else otherwise
  }

  /** The columns `upsertUser` may set, as its record names them. */
  const NameKey: string := "name"
  const EmailKey: string := "email"
  const LoginMethodKey: string := "loginMethod"
  const LastSignedInKey: string := "lastSignedIn"
  const UpdatedAtKey: string := "updatedAt"

  /** `UPDATE users SET <values>` applied to one row: a key that is absent leaves its column alone. */
  function ApplyUpdate(u: UserRow, values: map<string, UpdateValue>): UserRow {
    u.(name := if NameKey in values then TextOf(values[NameKey], u.name) else u.name,
       email := if EmailKey in values then TextOf(values[EmailKey], u.email) else u.email,
       loginMethod := if LoginMethodKey in values then TextOf(values[LoginMethodKey], u.loginMethod) else u.loginMethod,
       lastSignedIn := if LastSignedInKey in values then TimeOf(values[LastSignedInKey], u.lastSignedIn) else u.lastSignedIn,
       updatedAt := if UpdatedAtKey in values then TimeOf(values[UpdatedAtKey], u.updatedAt) else u.updatedAt)
  }

  // ---------------------------------------------------------------------
  // Query specifications
  // ---------------------------------------------------------------------

  /** The user's cases, newest insert first. */
  function CasesNewestFirst(cs: seq<CaseRow>, userId: int): seq<CaseRow> {
    if cs == [] then []
    else (if cs[|cs| - 1].userId == userId then [cs[|cs| - 1]] else []) + CasesNewestFirst(cs[..|cs| - 1], userId)
  }

  /** The case's log rows in insertion order. */
  function LogsOf(ls: seq<LogRow>, caseId: int): seq<LogRow> {
    if ls == [] then []
    else LogsOf(ls[..|ls| - 1], caseId) + (if ls[|ls| - 1].caseId == caseId then [ls[|ls| - 1]] else [])
  }

  lemma {:induction false} CasesNewestFirstMembers(cs: seq<CaseRow>, userId: int)
    ensures forall x :: x in CasesNewestFirst(cs, userId) <==> x in cs && x.userId == userId
  {
    if cs != [] {
      CasesNewestFirstMembers(cs[..|cs| - 1], userId);
      assert cs == cs[..|cs| - 1] + [cs[|cs| - 1]];
    }
  }

  /** Creation times never increase along the sequence. */
  predicate CreatedDescending(cs: seq<CaseRow>) {
    forall i, j :: 0 <= i < j < |cs| ==> cs[i].createdAt >= cs[j].createdAt
  }

  /** Timestamps never decrease along the sequence. */
  predicate StampedAscending(ls: seq<LogRow>) {
    forall i, j :: 0 <= i < j < |ls| ==> ls[i].timestamp <= ls[j].timestamp
  }

  /** A table stamped in insertion order lists each user's cases newest first. */
  lemma {:induction false} CasesNewestFirstSorted(cs: seq<CaseRow>, userId: int)
    requires forall i, j :: 0 <= i < j < |cs| ==> cs[i].createdAt <= cs[j].createdAt
    ensures CreatedDescending(CasesNewestFirst(cs, userId))
  {
    if cs != [] {
      var init := cs[..|cs| - 1];
      var last := cs[|cs| - 1];
      CasesNewestFirstSorted(init, userId);
      CasesNewestFirstMembers(init, userId);
      var rest := CasesNewestFirst(init, userId);
      assert forall x :: x in rest ==> x.createdAt <= last.createdAt by {
        forall x | x in rest ensures x.createdAt <= last.createdAt {
          var k :| 0 <= k < |init| && init[k] == x;
          assert cs[k] == x;
        }
      }
      if last.userId == userId {
        var r := [last] + rest;
        assert CasesNewestFirst(cs, userId) == r;
        forall i, j | 0 <= i < j < |r| ensures r[i].createdAt >= r[j].createdAt {
          assert r[j] == rest[j - 1];
          assert rest[j - 1] in rest;
          if i > 0 {
            assert r[i] == rest[i - 1];
          }
        }
      } else {
        assert CasesNewestFirst(cs, userId) == rest;
      }
    }
  }

  lemma {:induction false} LogsOfMembers(ls: seq<LogRow>, caseId: int)
    ensures forall x :: x in LogsOf(ls, caseId) <==> x in ls && x.caseId == caseId
  {
    if ls != [] {
      LogsOfMembers(ls[..|ls| - 1], caseId);
      assert ls == ls[..|ls| - 1] + [ls[|ls| - 1]];
    }
  }

  /** A table stamped in insertion order lists each case's rows in ascending time. */
  lemma {:induction false} LogsOfSorted(ls: seq<LogRow>, caseId: int)
    requires StampedAscending(ls)
    ensures StampedAscending(LogsOf(ls, caseId))
  {
    if ls != [] {
      var init := ls[..|ls| - 1];
      var last := ls[|ls| - 1];
      LogsOfSorted(init, caseId);
      LogsOfMembers(init, caseId);
      var rest := LogsOf(init, caseId);
      assert forall x :: x in rest ==> x.timestamp <= last.timestamp by {
        forall x | x in rest ensures x.timestamp <= last.timestamp {
          var k :| 0 <= k < |init| && init[k] == x;
          assert ls[k] == x;
        }
      }
      if last.caseId == caseId {
        var r := rest + [last];
        assert LogsOf(ls, caseId) == r;
        forall i, j | 0 <= i < j < |r| ensures r[i].timestamp <= r[j].timestamp {
          assert r[i] == rest[i];
          assert rest[i] in rest;
          if j < |rest| {
            assert r[j] == rest[j];
          }
        }
      } else {
        assert LogsOf(ls, caseId) == rest;
      }
    }
  }

  /** Appending a row to the log table extends each case's log by that row or leaves it alone. */
  lemma LogsOfAppend(ls: seq<LogRow>, row: LogRow, caseId: int)
    ensures LogsOf(ls + [row], caseId) == LogsOf(ls, caseId) + (if row.caseId == caseId then [row] else [])
  {
    assert (ls + [row])[..|ls|] == ls;
  }

  /** The case's result inserted last, if it has one. */
  function LatestResult(rs: seq<ResultRow>, caseId: int): (r: Option<ResultRow>)
    ensures r.Some? ==> r.value in rs && r.value.caseId == caseId
    ensures r.None? <==> forall k :: 0 <= k < |rs| ==> rs[k].caseId != caseId
  {
    if rs == [] then None
    else if rs[|rs| - 1].caseId == caseId then Some(rs[|rs| - 1])
    else
      var r := LatestResult(rs[..|rs| - 1], caseId);
      assert forall k :: 0 <= k < |rs| - 1 ==> rs[..|rs| - 1][k] == rs[k];
      r
  }

  /** The row found scanning backwards is the latest one. */
  lemma {:induction false} LatestResultAt(rs: seq<ResultRow>, caseId: int, k: int)
    requires 0 <= k < |rs| && rs[k].caseId == caseId
    requires forall j :: k < j < |rs| ==> rs[j].caseId != caseId
    ensures LatestResult(rs, caseId) == Some(rs[k])
  {
    if k < |rs| - 1 {
      var init := rs[..|rs| - 1];
      assert init[k] == rs[k];
      LatestResultAt(init, caseId, k);
    }
  }

  /**
   * In a table whose ids are positions plus one and whose creation times
   * never decrease, the latest result has the largest id and the latest
   * creation time among the case's results.
   */
  lemma {:induction false} LatestResultNewest(rs: seq<ResultRow>, caseId: int)
    requires forall k :: 0 <= k < |rs| ==> rs[k].id == k + 1
    requires forall i, j :: 0 <= i < j < |rs| ==> rs[i].createdAt <= rs[j].createdAt
    requires LatestResult(rs, caseId).Some?
    ensures forall k :: 0 <= k < |rs| && rs[k].caseId == caseId ==>
      rs[k].id <= LatestResult(rs, caseId).value.id && rs[k].createdAt <= LatestResult(rs, caseId).value.createdAt
  {
    var last := rs[|rs| - 1];
    if last.caseId != caseId {
      var init := rs[..|rs| - 1];
      assert forall k :: 0 <= k < |init| ==> init[k] == rs[k];
      LatestResultNewest(init, caseId);
    } else {
      forall k | 0 <= k < |rs| && rs[k].caseId == caseId
        ensures rs[k].id <= last.id && rs[k].createdAt <= last.createdAt
      {
        if k < |rs| - 1 {
          assert rs[k].createdAt <= rs[|rs| - 1].createdAt;
        }
      }
    }
  }

  /** After a result is written, it is the latest one of its case. */
  lemma LatestResultAppend(rs: seq<ResultRow>, row: ResultRow)
    ensures LatestResult(rs + [row], row.caseId) == Some(row)
  {
  }

  const DemoOpenId: string := "demo@local"

  // ---------------------------------------------------------------------
  // The tables
  // ---------------------------------------------------------------------

  class Database {
    var users: seq<UserRow>
    var cases: seq<CaseRow>
    var logs: seq<LogRow>
    var results: seq<ResultRow>
    /** The current time in seconds, as the timestamp columns store it. */
    var clock: int
    /** `ENV.ownerOpenId`: the user who is made an administrator on first sign-in. */
    const ownerOpenId: string

    /**
     * Ids are positions plus one, open ids are unique, every timestamp lies
     * in the past, and rows are stamped in the order they were inserted.
     */
    predicate Valid()
      reads this
    {
      && (forall k :: 0 <= k < |users| ==>
            (users[k].id == k + 1 && users[k].createdAt <= clock && users[k].updatedAt <= clock && users[k].lastSignedIn <= clock))
      && (forall i, j :: 0 <= i < j < |users| ==> users[i].openId != users[j].openId)
      && (forall k :: 0 <= k < |cases| ==> cases[k].id == k + 1 && cases[k].createdAt <= clock && cases[k].updatedAt <= clock)
      && (forall i, j :: 0 <= i < j < |cases| ==> cases[i].createdAt <= cases[j].createdAt)
      && (forall k :: 0 <= k < |logs| ==> logs[k].id == k + 1 && logs[k].timestamp <= clock)
      && StampedAscending(logs)
      && (forall k :: 0 <= k < |results| ==> results[k].id == k + 1 && results[k].createdAt <= clock)
      && (forall i, j :: 0 <= i < j < |results| ==> results[i].createdAt <= results[j].createdAt)
    }

    constructor(owner: string, start: int)
      ensures Valid()
      ensures users == [] && cases == [] && logs == [] && results == []
      ensures clock == start && ownerOpenId == owner
    {
      users, cases, logs, results := [], [], [], [];
      clock := start;
      ownerOpenId := owner;
    }

    /** Time passes. */
    method Tick(now: int)
      requires Valid() && now >= clock
      modifies this
      ensures Valid() && clock == now
      ensures users == old(users) && cases == old(cases) && logs == old(logs) && results == old(results)
    {
      clock := now;
    }

    // ----- cases -----

    /** `createCase`: a new pending case stamped now; its id is the next row id. */
    method CreateCase(userId: int, title: string, description: Column, query: string) returns (r: Result<int>)
      requires Valid()
      modifies this
      ensures Valid() && clock == old(clock)
      ensures users == old(users) && logs == old(logs) && results == old(results)
      ensures description.Unbindable? ==> r == Err(description.message) && cases == old(cases)
      ensures !description.Unbindable? ==>
        && r == Ok(|old(cases)| + 1)
        && cases == old(cases) + [CaseRow(|old(cases)| + 1, userId, title, Stored(description), query, Pending, clock, clock)]
    {
      if description.Unbindable? {
        return Err(description.message);
      }
      var id := |cases| + 1;
      cases := cases + [CaseRow(id, userId, title, Stored(description), query, Pending, clock, clock)];
      r := Ok(id);
    }

    /** `updateCaseStatus`: only that case's status and update time change. */
    method UpdateCaseStatus(caseId: int, status: Status)
      requires Valid()
      modifies this
      ensures Valid() && clock == old(clock)
      ensures users == old(users) && logs == old(logs) && results == old(results)
      ensures |cases| == |old(cases)|
      ensures forall k :: 0 <= k < |cases| ==>
        cases[k] == if old(cases)[k].id == caseId then old(cases)[k].(status := status, updatedAt := clock) else old(cases)[k]
    {
      if 1 <= caseId <= |cases| {
        cases := cases[caseId - 1 := cases[caseId - 1].(status := status, updatedAt := clock)];
      }
    }

    /** `getCaseById`: the row with that id, or nothing. */
    method GetCaseById(caseId: int) returns (r: Option<CaseRow>)
      ensures r.Some? <==> exists k :: 0 <= k < |cases| && cases[k].id == caseId
      ensures r.Some? ==> r.value in cases && r.value.id == caseId
    {
      var k := 0;
      while k < |cases|
        invariant 0 <= k <= |cases|
        invariant forall j :: 0 <= j < k ==> cases[j].id != caseId
      {
        if cases[k].id == caseId {
          return Some(cases[k]);
        }
        k := k + 1;
      }
      return None;
    }

    /** `getUserCases`: that user's cases, newest first. */
    method GetUserCases(userId: int) returns (r: seq<CaseRow>)
      requires Valid()
      ensures r == CasesNewestFirst(cases, userId)
      ensures forall x :: x in r <==> x in cases && x.userId == userId
      ensures CreatedDescending(r)
    {
      r := [];
      var k := 0;
      while k < |cases|
        invariant 0 <= k <= |cases|
        invariant r == CasesNewestFirst(cases[..k], userId)
      {
        assert cases[..k + 1][..k] == cases[..k];
        if cases[k].userId == userId {
          r := [cases[k]] + r;
        }
        k := k + 1;
      }
      assert cases[..|cases|] == cases;
      CasesNewestFirstMembers(cases, userId);
      CasesNewestFirstSorted(cases, userId);
    }

    // ----- agent logs -----

    /** `addAgentLog`: one row appended, stamped now; absent texts are stored as null. */
    method AddAgentLog(caseId: int, agentName: string, action: string,
                       input: Option<string>, output: Option<string>, reasoning: Option<string>)
      requires Valid()
      modifies this
      ensures Valid() && clock == old(clock)
      ensures users == old(users) && cases == old(cases) && results == old(results)
      ensures logs == old(logs) + [LogRow(|old(logs)| + 1, caseId, agentName, action, input, output, reasoning, clock)]
    {
      logs := logs + [LogRow(|logs| + 1, caseId, agentName, action, input, output, reasoning, clock)];
    }

    /** `getAgentLogsByCaseId`: that case's rows, in ascending timestamp order. */
    method GetAgentLogsByCaseId(caseId: int) returns (r: seq<LogRow>)
      requires Valid()
      ensures r == LogsOf(logs, caseId)
      ensures forall x :: x in r <==> x in logs && x.caseId == caseId
      ensures StampedAscending(r)
    {
      r := [];
      var k := 0;
      while k < |logs|
        invariant 0 <= k <= |logs|
        invariant r == LogsOf(logs[..k], caseId)
      {
        assert logs[..k + 1][..k] == logs[..k];
        if logs[k].caseId == caseId {
          r := r + [logs[k]];
        }
        k := k + 1;
      }
      assert logs[..|logs|] == logs;
      LogsOfMembers(logs, caseId);
      LogsOfSorted(logs, caseId);
    }

    // ----- results -----

    /** `createResult`: one row appended, stamped now, unless a value cannot be bound. */
    method CreateResult(caseId: int, summary: Column, findings: Column, precedents: Column,
                        statutes: Column, recommendation: Column) returns (r: Result<()>)
      requires Valid()
      modifies this
      ensures Valid() && clock == old(clock)
      ensures users == old(users) && cases == old(cases) && logs == old(logs)
      ensures var cols := [summary, findings, precedents, statutes, recommendation];
        && (FirstUnbindable(cols).Some? ==> r == Err(FirstUnbindable(cols).value) && results == old(results))
        && (FirstUnbindable(cols).None? ==> r == Ok(()) && results == old(results) + [ResultRow(|old(results)| + 1, caseId,
              Stored(summary), Stored(findings), Stored(precedents), Stored(statutes), Stored(recommendation), clock)])
    {
      var failure := FirstUnbindable([summary, findings, precedents, statutes, recommendation]);
      if failure.Some? {
        return Err(failure.value);
      }
      results := results + [ResultRow(|results| + 1, caseId, Stored(summary), Stored(findings),
                                      Stored(precedents), Stored(statutes), Stored(recommendation), clock)];
      r := Ok(());
    }

    /**
     * `getResultByCaseId`: a result of that case with the latest creation
     * time (of those, the last inserted), or nothing when it has none.
     */
    method GetResultByCaseId(caseId: int) returns (r: Option<ResultRow>)
      requires Valid()
      ensures r == LatestResult(results, caseId)
      ensures r.Some? ==> forall x :: x in results && x.caseId == caseId ==> x.createdAt <= r.value.createdAt
      ensures r.Some? ==> forall x :: x in results && x.caseId == caseId ==> x.id <= r.value.id
    {
      var k := |results|;
      while k > 0
        invariant 0 <= k <= |results|
        invariant forall j :: k <= j < |results| ==> results[j].caseId != caseId
      {
        k := k - 1;
        if results[k].caseId == caseId {
          LatestResultAt(results, caseId, k);
          LatestResultNewest(results, caseId);
          return Some(results[k]);
        }
      }
      return None;
    }

    // ----- users -----

    /** The position of the user with that open id, if there is one. */
    method FindUser(openId: string) returns (k: Option<nat>)
      ensures k.Some? ==> k.value < |users| && users[k.value].openId == openId
      ensures k.None? ==> forall j :: 0 <= j < |users| ==> users[j].openId != openId
    {
      var i := 0;
      while i < |users|
        invariant 0 <= i <= |users|
        invariant forall j :: 0 <= j < i ==> users[j].openId != openId
      {
        if users[i].openId == openId {
          return Some(i);
        }
        i := i + 1;
      }
      return None;
    }

    /**
     * `upsertUser`: without an open id it raises; a known user gets the
     * defined fields and fresh sign-in and update times; an unknown one is
     * inserted, as an administrator exactly when it is the owner.
     */
    method UpsertUser(input: UserInput) returns (r: Result<()>)
      requires Valid()
      modifies this
      ensures Valid() && clock == old(clock)
      ensures cases == old(cases) && logs == old(logs) && results == old(results)
      ensures input.openId == "" ==> r == Err("User openId is required for upsert") && users == old(users)
      ensures input.openId != "" ==> r == Ok(())
      ensures input.openId != "" && (exists k :: 0 <= k < |old(users)| && old(users)[k].openId == input.openId) ==>
        Refreshed(old(users), users, input, clock)
      ensures input.openId != "" && (forall k :: 0 <= k < |old(users)| ==> old(users)[k].openId != input.openId) ==>
        users == old(users) + [UserRow(|old(users)| + 1, input.openId, OrNull(input.name), OrNull(input.email),
                                       OrNull(input.loginMethod), if input.openId == ownerOpenId then Admin else Member,
                                       clock, clock, clock)]
    {
      if input.openId == "" {
        return Err("User openId is required for upsert");
      }
      var values := UpdateValues(input, clock);
      var found := FindUser(input.openId);
      if found.Some? {
        assert old(users)[found.value].openId == input.openId;
        RefreshUser(found.value, input, values);
      } else {
        InsertUser(input);
        assert !exists k :: 0 <= k < |old(users)| && old(users)[k].openId == input.openId;
      }
      r := Ok(());
    }

    /** The update branch of `upsertUser`: the user at `k` gets the defined fields and fresh times. */
    method RefreshUser(k: nat, input: UserInput, values: map<string, UpdateValue>)
      requires Valid() && k < |users| && users[k].openId == input.openId
      requires values == UserUpdate(input, clock)
      modifies this
      ensures Valid() && clock == old(clock)
      ensures cases == old(cases) && logs == old(logs) && results == old(results)
      ensures Refreshed(old(users), users, input, clock)
    {
      UpdateKeepsIdentity(users[k], input, clock);
      users := users[k := ApplyUpdate(users[k], values)];
      assert forall j :: 0 <= j < |users| && j != k ==> old(users)[j].openId != input.openId by {
        assert forall i, j :: 0 <= i < j < |old(users)| ==> old(users)[i].openId != old(users)[j].openId;
      }
    }

    /** The insert branch of `upsertUser`: a new row, an administrator exactly when it is the owner. */
    method InsertUser(input: UserInput)
      requires Valid() && forall j :: 0 <= j < |users| ==> users[j].openId != input.openId
      modifies this
      ensures Valid() && clock == old(clock)
      ensures cases == old(cases) && logs == old(logs) && results == old(results)
      ensures users == old(users) + [UserRow(|old(users)| + 1, input.openId, OrNull(input.name), OrNull(input.email),
                                             OrNull(input.loginMethod), if input.openId == ownerOpenId then Admin else Member,
                                             clock, clock, clock)]
    {
      var role := if input.openId == ownerOpenId then Admin else Member;
      users := users + [UserRow(|users| + 1, input.openId, OrNull(input.name), OrNull(input.email),
                                OrNull(input.loginMethod), role, clock, clock, clock)];
    }

    /** `ensureDemoUser`: the demo user's id, inserting the user the first time only. */
    method EnsureDemoUser() returns (id: int)
      requires Valid()
      modifies this
      ensures Valid() && clock == old(clock)
      ensures cases == old(cases) && logs == old(logs) && results == old(results)
      ensures exists k :: 0 <= k < |users| && users[k].openId == DemoOpenId && users[k].id == id
      ensures (exists k :: 0 <= k < |old(users)| && old(users)[k].openId == DemoOpenId) ==> users == old(users)
      ensures (forall k :: 0 <= k < |old(users)| ==> old(users)[k].openId != DemoOpenId) ==>
        users == old(users) + [UserRow(|old(users)| + 1, DemoOpenId, Some("Demo User"), Some(DemoOpenId),
                                       Some("local"), Member, clock, clock, clock)]
    {
      var found := FindUser(DemoOpenId);
      if found.None? {
        users := users + [UserRow(|users| + 1, DemoOpenId, Some("Demo User"), Some(DemoOpenId),
                                  Some("local"), Member, clock, clock, clock)];
        assert users[|users| - 1].openId == DemoOpenId;
        found := FindUser(DemoOpenId);
      }
      id := users[found.value].id;
    }
  }

  /** `upsertUser`'s `updateValues` record, built and then pruned of its undefined entries. */
  method UpdateValues(input: UserInput, now: int) returns (values: map<string, UpdateValue>)
    ensures values == UserUpdate(input, now)
    ensures forall k :: k in values ==> values[k] != Unset
  {
    values := map[NameKey := FieldValue(input.name), EmailKey := FieldValue(input.email),
                  LoginMethodKey := FieldValue(input.loginMethod),
                  LastSignedInKey := TimeValue(now), UpdatedAtKey := TimeValue(now)];
    var keys := [NameKey, EmailKey, LoginMethodKey, LastSignedInKey, UpdatedAtKey];
    assert forall i, j :: 0 <= i < j < |keys| ==> keys[i] != keys[j];
    values := PruneUndefined(values, keys);
  }

  /** The `updateValues` record `upsertUser` sends, once its undefined entries are gone. */
  function UserUpdate(input: UserInput, now: int): map<string, UpdateValue> {
    Defined(map[NameKey := FieldValue(input.name), EmailKey := FieldValue(input.email),
                LoginMethodKey := FieldValue(input.loginMethod),
                LastSignedInKey := TimeValue(now), UpdatedAtKey := TimeValue(now)])
  }

  /** The users after an upsert of a known open id at `now`: that user updated, every other row as it was. */
  predicate Refreshed(before: seq<UserRow>, after: seq<UserRow>, input: UserInput, now: int) {
    && |after| == |before|
    && forall k :: 0 <= k < |after| ==>
         after[k] == if before[k].openId == input.openId then ApplyUpdate(before[k], UserUpdate(input, now)) else before[k]
  }

  /** An upsert of a known user never touches the role, the open id or the creation time. */
  lemma UpdateKeepsIdentity(u: UserRow, input: UserInput, now: int)
    ensures var v := ApplyUpdate(u, UserUpdate(input, now));
      v.id == u.id && v.openId == u.openId && v.role == u.role && v.createdAt == u.createdAt
      && v.lastSignedIn == now && v.updatedAt == now
      && (input.name.Undefined? ==> v.name == u.name) && (!input.name.Undefined? ==> v.name == OrNull(input.name))
  {
  }
}
