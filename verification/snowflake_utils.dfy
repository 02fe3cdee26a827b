/** The query layer of `modules/snowflake_utils.py`: a load gate, one memoised connection,
    and `execute_query`'s retry loop over a backend that answers each attempt with rows
    or an error message. */
module SnowflakeUtils {
  import opened Text
  import opened Values

  /** What the backend answers for one attempt: a result table, or an error message. */
  datatype Outcome = Rows(rows: seq<Value>) | Failure(message: string)

  /** A query as the backend receives it: a label standing for the SQL text, and its
      positional parameters. */
  datatype Query = Query(text: string, params: seq<Value>)

  /** A created connection, told apart by its creation number. */
  datatype Connection = Connection(serial: nat)

  /** The default number of attempts of `execute_query`. */
  const MaxRetries: nat := 3

  /** An error is retried when its lower-cased message names concurrency or a limit. */
  predicate IsTransient(message: string) {
    var m := Lower(message);
    Contains(m, "concurrent queries") || Contains(m, "exceeded") || Contains(m, "limit")
  }

  /** The test ignores the case of the message. */
  lemma TransientIgnoresCase(message: string)
    ensures IsTransient(Upper(message)) <==> IsTransient(message)
    ensures IsTransient(Lower(message)) <==> IsTransient(message)
  {
    LowerOfUpper(message);
    LowerIdempotent(message);
  }

  /** The answer the backend gives at position `pos` of its script; a backend with
      nothing left to say answers with no rows. */
  function Answer(script: seq<Outcome>, pos: nat): Outcome {
    if pos < |script| then script[pos] else Rows([])
  }

  /** The effect of a run of `execute_query`: the rows returned, how many attempts reached
      the backend, and the seconds slept before each retry. */
  datatype Trace = Trace(rows: seq<Value>, attempts: nat, waits: seq<int>)

  /** The retry loop from attempt number `attempt` on, with the backend's next answer at
      position `pos` of its script, as a specification. */
  function Run(script: seq<Outcome>, pos: nat, attempt: nat, maxRetries: nat): Trace
    decreases maxRetries - attempt
  {
    if attempt >= maxRetries then Trace([], 0, [])
    else
      match Answer(script, pos)
      case Rows(rs) => Trace(rs, 1, [])
      case Failure(m) =>
        if IsTransient(m) && attempt < maxRetries - 1 then
          var t := Run(script, pos + 1, attempt + 1, maxRetries);
          Trace(t.rows, t.attempts + 1, [1 + attempt] + t.waits)
        else Trace([], 1, [])
  }

  /** One attempt of `Run`: a retried failure adds one attempt and one sleep to the rest
      of the run; anything else ends it. */
  lemma RunStep(script: seq<Outcome>, pos: nat, attempt: nat, maxRetries: nat)
    requires attempt < maxRetries
    ensures var a := Answer(script, pos);
      var t := Run(script, pos, attempt, maxRetries);
      if a.Failure? && IsTransient(a.message) && attempt < maxRetries - 1 then
        var t' := Run(script, pos + 1, attempt + 1, maxRetries);
        t == Trace(t'.rows, t'.attempts + 1, [1 + attempt] + t'.waits)
      else
        t == Trace(if a.Rows? then a.rows else [], 1, [])
  {
  }

  /** Sleeps grow by one second per retry, there is one fewer sleep than attempts, and the
      number of attempts never exceeds the bound. */
  lemma {:induction false} RunShape(script: seq<Outcome>, pos: nat, attempt: nat, maxRetries: nat)
    ensures var t := Run(script, pos, attempt, maxRetries);
      (attempt <= maxRetries ==> attempt + t.attempts <= maxRetries)
      && (attempt < maxRetries ==> t.attempts == |t.waits| + 1)
      && (attempt >= maxRetries ==> t.attempts == 0 && t.waits == [])
      && forall i :: 0 <= i < |t.waits| ==> t.waits[i] == 1 + attempt + i
    decreases maxRetries - attempt
  {
    if attempt < maxRetries {
      var n := Answer(script, pos);
      if n.Failure? && IsTransient(n.message) && attempt < maxRetries - 1 {
        RunShape(script, pos + 1, attempt + 1, maxRetries);
        var t' := Run(script, pos + 1, attempt + 1, maxRetries);
        var t := Run(script, pos, attempt, maxRetries);
        assert t.waits == [1 + attempt] + t'.waits;
        forall i | 0 <= i < |t.waits|
          ensures t.waits[i] == 1 + attempt + i
        {
          if i > 0 {
            assert t.waits[i] == t'.waits[i - 1];
          }
        }
      }
    }
  }

  /** A whole run makes at most `maxRetries` attempts and sleeps 1, 2, … seconds. */
  lemma RunBounds(script: seq<Outcome>, pos: nat, maxRetries: nat)
    ensures var t := Run(script, pos, 0, maxRetries);
      t.attempts <= maxRetries
      && (maxRetries > 0 ==> t.attempts == |t.waits| + 1)
      && forall i :: 0 <= i < |t.waits| ==> t.waits[i] == i + 1
  {
    RunShape(script, pos, 0, maxRetries);
  }

  /** A backend that is busy for three attempts in a row costs three attempts, sleeps of
      1 then 2 seconds, and yields an empty result rather than an error. */
  lemma BusyBackend(script: seq<Outcome>, pos: nat)
    requires pos + 3 <= |script|
    requires forall i :: pos <= i < pos + 3 ==> script[i].Failure? && IsTransient(script[i].message)
    ensures Run(script, pos, 0, MaxRetries) == Trace([], 3, [1, 2])
  {
    assert Answer(script, pos + 2) == script[pos + 2];
    assert Run(script, pos + 2, 2, 3) == Trace([], 1, []);
    assert Answer(script, pos + 1) == script[pos + 1];
    assert Run(script, pos + 1, 1, 3) == Trace([], 2, [2]);
  }

  /** A non-transient error is not retried: one attempt, no sleep, empty result. */
  lemma PermanentFailure(script: seq<Outcome>, pos: nat, maxRetries: nat)
    requires maxRetries > 0
    requires Answer(script, pos).Failure? && !IsTransient(Answer(script, pos).message)
    ensures Run(script, pos, 0, maxRetries) == Trace([], 1, [])
  {
  }

  /** The rows are empty unless the backend answered with those rows at or after `pos`:
      an error never escapes as anything but an empty result. */
  lemma {:induction false} RunRowsFromScript(script: seq<Outcome>, pos: nat, attempt: nat, maxRetries: nat)
    ensures var rs := Run(script, pos, attempt, maxRetries).rows;
      rs == [] || exists i :: pos <= i < |script| && script[i] == Rows(rs)
    decreases maxRetries - attempt
  {
    if attempt < maxRetries && Answer(script, pos).Failure? {
      var m := Answer(script, pos).message;
      if IsTransient(m) && attempt < maxRetries - 1 {
        RunRowsFromScript(script, pos + 1, attempt + 1, maxRetries);
      }
    }
  }

  function Repeat<T>(x: T, n: nat): (r: seq<T>)
    ensures |r| == n && forall i :: 0 <= i < n ==> r[i] == x
  {
    if n == 0 then [] else Repeat(x, n - 1) + [x]
  }

  /** One attempt of the retry loop, from the state before it (unprimed) to the state
      after it (primed): the query is sent once, a connection is created when there is
      none, and a transient error with attempts left is slept on for `1 + attempt`
      seconds and drops the connection; anything else stops the loop. */
  ghost predicate Attempted(script: seq<Outcome>, q: Query, attempt: nat, maxRetries: nat,
                            sent: seq<Query>, waits: seq<int>, created: nat, connection: Option<Connection>,
                            stop: bool, rows: seq<Value>,
                            sent': seq<Query>, waits': seq<int>, created': nat, connection': Option<Connection>)
  {
    var a := Answer(script, |sent|);
    var retried := a.Failure? && IsTransient(a.message) && attempt < maxRetries - 1;
    stop == !retried
    && rows == (if a.Rows? then a.rows else [])
    && sent' == sent + [q]
    && created' == created + (if connection.None? then 1 else 0)
    && (retried ==> waits' == waits + [1 + attempt] && connection' == None)
    && (!retried ==> waits' == waits && connection'.Some?)
  }

  /** The state `execute_query` leaves, from the state before it (suffix 0): the rows,
      queries, sleeps and connections of `Run`. */
  ghost predicate Finished(script: seq<Outcome>, q: Query, maxRetries: nat,
                           sent0: seq<Query>, waits0: seq<int>, created0: nat, hadConnection: bool,
                           rows: seq<Value>,
                           sent: seq<Query>, waits: seq<int>, created: nat, connection: Option<Connection>)
  {
    var t := Run(script, |sent0|, 0, maxRetries);
    rows == t.rows
    && sent == sent0 + Repeat(q, t.attempts)
    && waits == waits0 + t.waits
    && (t.attempts > 0 ==> connection.Some?)
    && created == created0 + (if t.attempts == 0 then 0 else (if hadConnection then 0 else 1) + |t.waits|)
  }

  /** The state of the retry loop before attempt number `attempt`, every earlier attempt
      having failed transiently: what has been sent, slept and created so far, and what
      the rest of the run still has to do. */
  ghost predicate Midway(script: seq<Outcome>, q: Query, maxRetries: nat,
                         sent0: seq<Query>, waits0: seq<int>, created0: nat, hadConnection: bool,
                         attempt: nat,
                         sent: seq<Query>, waits: seq<int>, created: nat, connection: Option<Connection>)
  {
    var total := Run(script, |sent0|, 0, maxRetries);
    var rest := Run(script, |sent0| + attempt, attempt, maxRetries);
    attempt < maxRetries
    && sent == sent0 + Repeat(q, attempt)
    && total.rows == rest.rows && total.attempts == attempt + rest.attempts
    && waits0 + total.waits == waits + rest.waits
    && |waits| == |waits0| + attempt
    && (attempt > 0 ==> connection.None?)
    && (attempt == 0 ==> (connection.Some? <==> hadConnection))
    && created == created0 + (if attempt == 0 then 0 else (if hadConnection then 0 else 1) + attempt - 1)
  }

  /** Before the first attempt the loop's state is consistent, and a loop with no attempt
      at all is finished at once. */
  lemma MidwayStart(script: seq<Outcome>, q: Query, maxRetries: nat,
                    sent: seq<Query>, waits: seq<int>, created: nat, connection: Option<Connection>)
    ensures maxRetries > 0 ==>
      Midway(script, q, maxRetries, sent, waits, created, connection.Some?, 0, sent, waits, created, connection)
    ensures maxRetries == 0 ==>
      Finished(script, q, maxRetries, sent, waits, created, connection.Some?, [], sent, waits, created, connection)
  {
    assert sent + Repeat(q, 0) == sent;
    assert waits + [] == waits;
  }

  /** An attempt that is retried keeps the loop's state consistent. */
  lemma MidwayNext(script: seq<Outcome>, q: Query, maxRetries: nat,
                   sent0: seq<Query>, waits0: seq<int>, created0: nat, hadConnection: bool,
                   attempt: nat,
                   sent: seq<Query>, waits: seq<int>, created: nat, connection: Option<Connection>,
                   rows: seq<Value>,
                   sent': seq<Query>, waits': seq<int>, created': nat, connection': Option<Connection>)
    requires Midway(script, q, maxRetries, sent0, waits0, created0, hadConnection, attempt,
                    sent, waits, created, connection)
    requires Attempted(script, q, attempt, maxRetries, sent, waits, created, connection,
                       false, rows, sent', waits', created', connection')
    ensures Midway(script, q, maxRetries, sent0, waits0, created0, hadConnection, attempt + 1,
                   sent', waits', created', connection')
  {
    RunStep(script, |sent|, attempt, maxRetries);
    var total := Run(script, |sent0|, 0, maxRetries);
    var next := Run(script, |sent0| + attempt + 1, attempt + 1, maxRetries);
    assert waits0 + total.waits == (waits + [1 + attempt]) + next.waits;
    assert Repeat(q, attempt + 1) == Repeat(q, attempt) + [q];
  }

  /** An attempt that stops the loop leaves the state `execute_query` promises. */
  lemma MidwayStop(script: seq<Outcome>, q: Query, maxRetries: nat,
                   sent0: seq<Query>, waits0: seq<int>, created0: nat, hadConnection: bool,
                   attempt: nat,
                   sent: seq<Query>, waits: seq<int>, created: nat, connection: Option<Connection>,
                   rows: seq<Value>,
                   sent': seq<Query>, waits': seq<int>, created': nat, connection': Option<Connection>)
    requires Midway(script, q, maxRetries, sent0, waits0, created0, hadConnection, attempt,
                    sent, waits, created, connection)
    requires Attempted(script, q, attempt, maxRetries, sent, waits, created, connection,
                       true, rows, sent', waits', created', connection')
    ensures Finished(script, q, maxRetries, sent0, waits0, created0, hadConnection,
                     rows, sent', waits', created', connection')
  {
    RunStep(script, |sent|, attempt, maxRetries);
    var t := Run(script, |sent0|, 0, maxRetries);
    assert waits0 + t.waits == waits + [];
    assert |t.waits| == attempt;
    assert Repeat(q, attempt + 1) == Repeat(q, attempt) + [q];
  }

  /** The module globals `_APP_FULLY_LOADED` and `_GLOBAL_CONNECTION`, and a backend that
      answers the k-th query it receives with the k-th outcome of its script; `sent` and
      `waits` record every attempted query and every sleep. */
  class QueryLayer {
    var appLoaded: bool
    var connection: Option<Connection>
    var created: nat
    const script: seq<Outcome>
    var sent: seq<Query>
    var waits: seq<int>

    constructor (backend: seq<Outcome>)
      ensures !appLoaded && connection == None && created == 0
      ensures script == backend && sent == [] && waits == []
    {
      appLoaded := false;
      connection := None;
      created := 0;
      script := backend;
      sent := [];
      waits := [];
    }

    /** `mark_app_loaded` */
    method MarkAppLoaded()
      modifies this
      ensures appLoaded
      ensures connection == old(connection) && created == old(created)
      ensures sent == old(sent) && waits == old(waits)
    {
      appLoaded := true;
    }

    /** `get_connection`: creates a connection only when there is none, and otherwise
        hands back the one it has. */
    method GetConnection() returns (c: Connection)
      modifies this
      ensures connection == Some(c)
      ensures old(connection).Some? ==> c == old(connection).value && created == old(created)
      ensures old(connection).None? ==> created == old(created) + 1 && c == Connection(created)
      ensures appLoaded == old(appLoaded) && sent == old(sent) && waits == old(waits)
    {
      if connection.None? {
        created := created + 1;
        connection := Some(Connection(created));
      }
      c := connection.value;
    }

    /** `execute_query`: nothing happens before the app is loaded; afterwards the attempts,
        sleeps, connection resets and result are those of `Run`. */
    method ExecuteQuery(q: Query, maxRetries: nat) returns (rows: seq<Value>)
      modifies this
      ensures !old(appLoaded) ==>
        rows == [] && connection == old(connection) && created == old(created)
        && sent == old(sent) && waits == old(waits)
      ensures old(appLoaded) ==>
        var t := Run(script, |old(sent)|, 0, maxRetries);
        rows == t.rows
        && sent == old(sent) + Repeat(q, t.attempts)
        && waits == old(waits) + t.waits
        && (t.attempts > 0 ==> connection.Some?)
        && created == old(created) + (if t.attempts == 0 then 0
             else (if old(connection).None? then 1 else 0) + |t.waits|)
      ensures appLoaded == old(appLoaded)
    {
      if !appLoaded {
        return [];
      }
      rows := Retry(q, maxRetries);
    }

    /** The `for attempt in range(max_retries)` loop of `execute_query`. */
    method Retry(q: Query, maxRetries: nat) returns (rows: seq<Value>)
      requires appLoaded
      modifies this
      ensures Finished(script, q, maxRetries, old(sent), old(waits), old(created), old(connection).Some?,
                       rows, sent, waits, created, connection)
      ensures appLoaded
    {
      ghost var sent0, waits0, created0, hadConnection := sent, waits, created, connection.Some?;
      MidwayStart(script, q, maxRetries, sent, waits, created, connection);
      var attempt := 0;
      while attempt < maxRetries
        invariant attempt <= maxRetries && appLoaded
        invariant maxRetries > 0 ==>
          Midway(script, q, maxRetries, sent0, waits0, created0, hadConnection, attempt,
                 sent, waits, created, connection)
        invariant maxRetries == 0 ==>
          Finished(script, q, maxRetries, sent0, waits0, created0, hadConnection, [],
                   sent, waits, created, connection)
      {
        ghost var sent1, waits1, created1, connection1 := sent, waits, created, connection;
        var stop, rs := Step(q, attempt, maxRetries);
        if stop {
          MidwayStop(script, q, maxRetries, sent0, waits0, created0, hadConnection, attempt,
                     sent1, waits1, created1, connection1, rs, sent, waits, created, connection);
          return rs;
        }
        MidwayNext(script, q, maxRetries, sent0, waits0, created0, hadConnection, attempt,
                   sent1, waits1, created1, connection1, rs, sent, waits, created, connection);
        attempt := attempt + 1;
      }
      return [];
    }

    /** One pass of the retry loop's body: take the memoised connection (creating it if
        need be), send the query, and on a transient error with attempts left sleep and
        drop the connection. */
    method Step(q: Query, attempt: nat, maxRetries: nat) returns (stop: bool, rows: seq<Value>)
      modifies this
      ensures Attempted(script, q, attempt, maxRetries, old(sent), old(waits), old(created), old(connection),
                        stop, rows, sent, waits, created, connection)
      ensures appLoaded == old(appLoaded)
    {
      var c := GetConnection();
      var answer := Answer(script, |sent|);
      sent := sent + [q];
      match answer {
        case Rows(rs) =>
          return true, rs;
        case Failure(m) =>
          if IsTransient(m) {
            if attempt < maxRetries - 1 {
              waits := waits + [1 + attempt];
              connection := None;
              return false, [];
            } else {
              return true, [];
            }
          } else {
            return true, [];
          }
      }
    }

    /** `search_salesforce_accounts_live`: a missing or one-character term is answered
        with no rows and no query; otherwise the term is matched anywhere in the name. */
    method SearchAccountsLive(term: string, limit: int) returns (rows: seq<Value>)
      modifies this
      ensures |term| < 2 ==>
        rows == [] && sent == old(sent) && waits == old(waits)
        && connection == old(connection) && created == old(created)
      ensures |term| >= 2 && !old(appLoaded) ==>
        rows == [] && sent == old(sent) && waits == old(waits)
        && connection == old(connection) && created == old(created)
      ensures |term| >= 2 && old(appLoaded) ==>
        var t := Run(script, |old(sent)|, 0, MaxRetries);
        rows == t.rows
        && sent == old(sent) + Repeat(Query("search_salesforce_accounts_live", LiveSearchParams(term, limit)), t.attempts)
        && waits == old(waits) + t.waits
        && (t.attempts > 0 ==> connection.Some?)
        && created == old(created) + (if t.attempts == 0 then 0
             else (if old(connection).None? then 1 else 0) + |t.waits|)
      ensures appLoaded == old(appLoaded)
    {
      if |term| < 2 {
        return [];
      }
      rows := ExecuteQuery(Query("search_salesforce_accounts_live", LiveSearchParams(term, limit)), MaxRetries);
    }

    /** `get_salesforce_account_by_id`: an empty id is answered with no rows and no query. */
    method AccountById(accountId: string) returns (rows: seq<Value>)
      modifies this
      ensures accountId == "" ==>
        rows == [] && sent == old(sent) && waits == old(waits)
        && connection == old(connection) && created == old(created)
      ensures accountId != "" && !old(appLoaded) ==>
        rows == [] && sent == old(sent) && waits == old(waits)
        && connection == old(connection) && created == old(created)
      ensures accountId != "" && old(appLoaded) ==>
        var t := Run(script, |old(sent)|, 0, MaxRetries);
        rows == t.rows
        && sent == old(sent) + Repeat(Query("get_salesforce_account_by_id", [VStr(accountId)]), t.attempts)
        && waits == old(waits) + t.waits
        && (t.attempts > 0 ==> connection.Some?)
        && created == old(created) + (if t.attempts == 0 then 0
             else (if old(connection).None? then 1 else 0) + |t.waits|)
      ensures appLoaded == old(appLoaded)
    {
      if accountId == "" {
        return [];
      }
      rows := ExecuteQuery(Query("get_salesforce_account_by_id", [VStr(accountId)]), MaxRetries);
    }

    /** `search_accounts_by_domain`: the domain, without scheme or `www.`, is matched
        anywhere in the website. */
    method AccountsByDomain(domain: string) returns (rows: seq<Value>)
      modifies this
      ensures domain == "" ==>
        rows == [] && sent == old(sent) && waits == old(waits)
        && connection == old(connection) && created == old(created)
      ensures domain != "" && !old(appLoaded) ==>
        rows == [] && sent == old(sent) && waits == old(waits)
        && connection == old(connection) && created == old(created)
      ensures domain != "" && old(appLoaded) ==>
        var t := Run(script, |old(sent)|, 0, MaxRetries);
        rows == t.rows
        && sent == old(sent) + Repeat(Query("search_accounts_by_domain", [VStr(Wildcard(CleanDomain(domain)))]), t.attempts)
        && waits == old(waits) + t.waits
        && (t.attempts > 0 ==> connection.Some?)
        && created == old(created) + (if t.attempts == 0 then 0
             else (if old(connection).None? then 1 else 0) + |t.waits|)
      ensures appLoaded == old(appLoaded)
    {
      if domain == "" {
        return [];
      }
      rows := ExecuteQuery(Query("search_accounts_by_domain", [VStr(Wildcard(CleanDomain(domain)))]), MaxRetries);
    }

    /** `search_experts_by_skills`: empty text is answered with no rows and no query. */
    method ExpertsBySkills(skillsText: string) returns (rows: seq<Value>)
      modifies this
      ensures skillsText == "" ==>
        rows == [] && sent == old(sent) && waits == old(waits)
        && connection == old(connection) && created == old(created)
      ensures skillsText != "" && !old(appLoaded) ==>
        rows == [] && sent == old(sent) && waits == old(waits)
        && connection == old(connection) && created == old(created)
      ensures skillsText != "" && old(appLoaded) ==>
        var t := Run(script, |old(sent)|, 0, MaxRetries);
        rows == t.rows
        && sent == old(sent) + Repeat(Query("search_experts_by_skills", FlatMap(Split(skillsText, ','), SkillParams, |Split(skillsText, ',')|)), t.attempts)
        && waits == old(waits) + t.waits
        && (t.attempts > 0 ==> connection.Some?)
        && created == old(created) + (if t.attempts == 0 then 0
             else (if old(connection).None? then 1 else 0) + |t.waits|)
      ensures appLoaded == old(appLoaded)
    {
      if skillsText == "" {
        return [];
      }
      var clause, params := SkillConditions(skillsText);
      rows := ExecuteQuery(Query("search_experts_by_skills", params), MaxRetries);
    }
  }

  /** `f"%{s}%"`: a SQL `LIKE` pattern matching `s` anywhere. */
  function Wildcard(s: string): (r: string)
    ensures |r| == |s| + 2 && r[0] == '%' && r[|r| - 1] == '%' && r[1..|r| - 1] == s
  {
    "%" + s + "%"
  }

  function LiveSearchParams(term: string, limit: int): seq<Value> {
    [VStr(Wildcard(term)), VInt(limit)]
  }

  /** The domain with `http://`, `https://` and `www.` removed, in that order. */
  function CleanDomain(domain: string): (r: string)
    ensures |r| <= |domain|
  {
    ReplaceByEmptyShrinks(domain, "http://");
    ReplaceByEmptyShrinks(Replace(domain, "http://", ""), "https://");
    ReplaceByEmptyShrinks(Replace(Replace(domain, "http://", ""), "https://", ""), "www.");
    Replace(Replace(Replace(domain, "http://", ""), "https://", ""), "www.", "")
  }

  /** The condition added for every skill: three columns, each matched with one parameter. */
  const SkillCondition: string :=
    "(UPPER(SELF_ASSESMENT_SKILL_300) LIKE UPPER(?) OR UPPER(SELF_ASSESMENT_SKILL_400) LIKE UPPER(?) OR UPPER(SPECIALTIES) LIKE UPPER(?))"

  /** The three parameters one skill contributes: its stripped text, wrapped in `%`,
      once for each searched column. */
  function SkillParams(term: string): (r: seq<Value>)
    ensures |r| == 3
  {
    var p := VStr(Wildcard(Strip(term)));
    [p, p, p]
  }

  /** The concatenation of `f(x)` over the first `n` elements `x` of `xs`, in order. */
  function FlatMap<A, B>(xs: seq<A>, f: A -> seq<B>, n: nat): seq<B>
    requires n <= |xs|
  {
    if n == 0 then [] else FlatMap(xs, f, n - 1) + f(xs[n - 1])
  }

  /** When every `f(x)` has three elements, elements `3 * i` to `3 * i + 2` of the
      concatenation are `f(xs[i])`. */
  lemma {:induction false} FlatMapTriples<A, B>(xs: seq<A>, f: A -> seq<B>, n: nat)
    requires n <= |xs|
    requires forall x :: |f(x)| == 3
    ensures |FlatMap(xs, f, n)| == 3 * n
    ensures forall i :: 0 <= i < n ==> FlatMap(xs, f, n)[3 * i..3 * i + 3] == f(xs[i])
  {
    if n > 0 {
      FlatMapTriples(xs, f, n - 1);
      var a := FlatMap(xs, f, n - 1);
      var b := f(xs[n - 1]);
      forall i | 0 <= i < n
        ensures (a + b)[3 * i..3 * i + 3] == f(xs[i])
      {
        if i < n - 1 {
          SliceOfConcat(a, b, 3 * i, 3 * i + 3);
          assert a[3 * i..3 * i + 3] == f(xs[i]);
        } else {
          assert 3 * i == |a|;
          SliceOfConcat(a, b, |a|, |a| + 3);
        }
      }
    }
  }

  /** A slice of `a + b` lying within `a` is that slice of `a`; the one just after `a` is `b`. */
  lemma SliceOfConcat<T>(a: seq<T>, b: seq<T>, i: nat, j: nat)
    requires i <= j <= |a| || (i == |a| && j == |a| + |b|)
    ensures j <= |a| ==> (a + b)[i..j] == a[i..j]
    ensures i == |a| && j == |a| + |b| ==> (a + b)[i..j] == b
  {
  }

  /** The `WHERE` disjunction and the parameter list of `search_experts_by_skills`: one
      condition per comma-separated piece, joined by ` OR `, and its three parameters. */
  method SkillConditions(skillsText: string) returns (clause: string, params: seq<Value>)
    ensures var terms := Split(skillsText, ',');
      params == FlatMap(terms, SkillParams, |terms|)
      && clause == Join(Repeat(SkillCondition, |terms|), " OR ")
  {
    var terms := Split(skillsText, ',');
    var conditions: seq<string> := [];
    params := [];
    var k := 0;
    while k < |terms|
      invariant 0 <= k <= |terms|
      invariant conditions == Repeat(SkillCondition, k)
      invariant params == FlatMap(terms, SkillParams, k)
    {
      var skill := Strip(terms[k]);
      conditions := conditions + [SkillCondition];
      params := params + [VStr(Wildcard(skill)), VStr(Wildcard(skill)), VStr(Wildcard(skill))];
      k := k + 1;
    }
    clause := Join(conditions, " OR ");
  }
}
