/** `cortex_request` of `modules/llm_functions.py`: one completion command with the prompt
    quote-escaped, a naive first extraction of JSON from the reply, and at most one repair
    request whose reply alone goes through the counted-bracket walk. `json.loads` is a
    parameter: `loads(s)` is `None` exactly when decoding `s` raises. */
module Completion {
  import opened Text
  import opened Values
  import opened SnowflakeUtils

  // ----- Escaping for a single-quoted SQL string literal -----

  /** `prompt.replace("'", "''")` */
  function Escape(p: string): string {
    Replace(p, "'", "''")
  }

  lemma EscapeCons(c: char, rest: string)
    ensures Escape([c] + rest) == (if c == '\'' then "''" else [c]) + Escape(rest)
  {
    var s := [c] + rest;
    assert s[..1] == [c];
    assert s[1..] == rest;
  }

  /** Every quote stands in a pair of quotes: the text cannot end the literal early. */
  predicate WellEscaped(e: string)
    decreases |e|
  {
    if e == [] then true
    else if e[0] != '\'' then WellEscaped(e[1..])
    else |e| >= 2 && e[1] == '\'' && WellEscaped(e[2..])
  }

  /** What the SQL engine reads back from a literal's body: a doubled quote is one quote. */
  function Unescape(e: string): string
    decreases |e|
  {
    if e == [] then []
    else if |e| >= 2 && e[0] == '\'' && e[1] == '\'' then "'" + Unescape(e[2..])
    else [e[0]] + Unescape(e[1..])
  }

  /** The escaped prompt has no lone quote. */
  lemma {:induction false} EscapeWellFormed(p: string)
    ensures WellEscaped(Escape(p))
  {
    if p != [] {
      assert p == [p[0]] + p[1..];
      EscapeCons(p[0], p[1..]);
      EscapeWellFormed(p[1..]);
      var e := Escape(p);
      if p[0] == '\'' {
        assert e[2..] == Escape(p[1..]);
      } else {
        assert e[1..] == Escape(p[1..]);
      }
    }
  }

  /** The engine reads back exactly the prompt. */
  lemma {:induction false} UnescapeEscape(p: string)
    ensures Unescape(Escape(p)) == p
  {
    if p != [] {
      assert p == [p[0]] + p[1..];
      EscapeCons(p[0], p[1..]);
      UnescapeEscape(p[1..]);
      var e := Escape(p);
      if p[0] == '\'' {
        assert e[2..] == Escape(p[1..]);
      } else {
        assert e[1..] == Escape(p[1..]);
      }
    }
  }

  /** Conversely, every well-formed literal body is the escape of what it reads back as. */
  lemma {:induction false} EscapeUnescape(e: string)
    requires WellEscaped(e)
    ensures Escape(Unescape(e)) == e
    decreases |e|
  {
    if e != [] {
      if e[0] == '\'' {
        EscapeUnescape(e[2..]);
        EscapeCons('\'', Unescape(e[2..]));
        assert e == "''" + e[2..];
      } else {
        EscapeUnescape(e[1..]);
        EscapeCons(e[0], Unescape(e[1..]));
        assert e == [e[0]] + e[1..];
      }
    }
  }

  /** The completion command for a model and a prompt. */
  function CompletionCommand(model: string, prompt: string): string {
    "SELECT SNOWFLAKE.CORTEX.COMPLETE('" + model + "', '" + Escape(prompt) + "') as response"
  }

  /** The prompt of the one repair request. */
  function RepairPrompt(reply: string): string {
    "Fix this JSON and return ONLY the corrected JSON with no other text:\n\n" + reply
      + "\n\nReturn ONLY valid JSON:"
  }

  /** The `RESPONSE` cell of the first row; `None` for an empty result, a null cell or a
      missing column. */
  function ResponseText(rows: seq<Value>): (r: Option<string>)
    ensures rows == [] ==> r.None?
    ensures r.Some? ==> Lookup(rows[0], "RESPONSE") == Some(VStr(r.value))
  {
    if rows == [] then None
    else match Lookup(rows[0], "RESPONSE")
      case Some(VStr(s)) => Some(s)
      case _ => None
  }

  // ----- First pass: naive extraction -----

  /** The slice from the first `{` to the last `}`, or, only when there is no `{`, from
      the first `[` to the last `]`; `None` when the opener or the closer is missing. */
  function NaiveCandidate(s: string): Option<string> {
    var objStart := IndexOf(s, '{');
    var start := if objStart == -1 then IndexOf(s, '[') else objStart;
    var end := if objStart == -1 then LastIndexOf(s, ']') + 1 else LastIndexOf(s, '}') + 1;
    if start != -1 && end != 0 then Some(Slice(s, start, end)) else None
  }

  lemma IndexOfIn(s: string, c: char)
    ensures IndexOf(s, c) == -1 <==> c !in s
    ensures LastIndexOf(s, c) == -1 <==> c !in s
  {
    if c in s {
      var j :| 0 <= j < |s| && s[j] == c;
    }
  }

  /** Which slice the first pass decodes. */
  lemma NaiveCandidateSpec(s: string)
    ensures NaiveCandidate(s).Some? <==>
      ('{' in s && '}' in s) || ('{' !in s && '[' in s && ']' in s)
    ensures '{' in s && '}' in s && IndexOf(s, '{') < LastIndexOf(s, '}') ==>
      NaiveCandidate(s) == Some(s[IndexOf(s, '{')..LastIndexOf(s, '}') + 1])
    ensures '{' !in s && '[' in s && ']' in s && IndexOf(s, '[') < LastIndexOf(s, ']') ==>
      NaiveCandidate(s) == Some(s[IndexOf(s, '[')..LastIndexOf(s, ']') + 1])
    ensures NaiveCandidate(s).Some? && '{' in s ==> var c := NaiveCandidate(s).value;
      c == [] || (c[0] == '{' && c[|c| - 1] == '}')
  {
    NaiveCandidateFound(s);
    if '{' in s {
      NaiveObject(s);
    } else {
      NaiveArray(s);
    }
  }

  lemma NaiveCandidateFound(s: string)
    ensures NaiveCandidate(s).Some? <==>
      ('{' in s && '}' in s) || ('{' !in s && '[' in s && ']' in s)
  {
    IndexOfIn(s, '{');
    IndexOfIn(s, '}');
    IndexOfIn(s, '[');
    IndexOfIn(s, ']');
  }

  lemma NaiveObject(s: string)
    requires '{' in s
    ensures '}' in s && IndexOf(s, '{') < LastIndexOf(s, '}') ==>
      NaiveCandidate(s) == Some(s[IndexOf(s, '{')..LastIndexOf(s, '}') + 1])
    ensures NaiveCandidate(s).Some? ==> var c := NaiveCandidate(s).value;
      c == [] || (c[0] == '{' && c[|c| - 1] == '}')
  {
    IndexOfIn(s, '{');
    IndexOfIn(s, '}');
  }

  lemma NaiveArray(s: string)
    requires '{' !in s
    ensures '[' in s && ']' in s && IndexOf(s, '[') < LastIndexOf(s, ']') ==>
      NaiveCandidate(s) == Some(s[IndexOf(s, '[')..LastIndexOf(s, ']') + 1])
  {
    IndexOfIn(s, '{');
    IndexOfIn(s, '[');
    IndexOfIn(s, ']');
  }

  /** The first pass: `None` is a decode failure, which leads to the repair request. */
  function FirstPass(s: string, loads: string -> Option<Value>): Option<Value> {
    match NaiveCandidate(s)
    case None => None
    case Some(c) => loads(c)
  }

  /** An object without its closing brace is a decode failure, whatever `loads` is. */
  lemma MissingCloserFails(s: string, loads: string -> Option<Value>)
    requires '{' in s && '}' !in s
    ensures FirstPass(s, loads) == None
  {
    NaiveCandidateSpec(s);
  }

  // ----- Second pass: the counted-bracket walk on the repaired text -----

  /** Openers minus closers in `s`. */
  function Balance(s: string, open: char, close: char): int {
    Count(s, open) - Count(s, close)
  }

  lemma BalanceSnoc(text: string, start: nat, i: nat, open: char, close: char)
    requires start <= i < |text|
    ensures Balance(text[start..i + 1], open, close) ==
      Balance(text[start..i], open, close)
      + (if text[i] == open then 1 else 0) - (if text[i] == close then 1 else 0)
  {
    assert text[start..i + 1][..i - start] == text[start..i];
  }

  /** The nesting depth once the character at `j` has been read, counting from `start`. */
  function DepthThrough(text: string, start: nat, j: nat, open: char, close: char): int
    requires start <= j < |text|
  {
    Balance(text[start..j + 1], open, close)
  }

  /** The scan of the bracket walk from index `i` on, the text from `start` to `i` being
      still open. */
  function ClosingFrom(text: string, start: nat, i: nat, open: char, close: char): (k: int)
    requires start <= i <= |text| && open != close
    requires i == start ==> start < |text| && text[start] == open
    requires i > start ==> Balance(text[start..i], open, close) > 0
    ensures k == -1 || (i <= k < |text| && text[k] == close && DepthThrough(text, start, k, open, close) == 0)
    ensures forall j :: i <= j < |text| && (k == -1 || j < k) ==> DepthThrough(text, start, j, open, close) > 0
    decreases |text| - i
  {
    if i == |text| then -1
    else
      BalanceSnoc(text, start, i, open, close);
      if text[i] == close && Balance(text[start..i + 1], open, close) == 0 then i
      else ClosingFrom(text, start, i + 1, open, close)
  }

  /** The index at which the bracket opened at `start` is closed: the first index where
      the text from `start` holds as many closers as openers; -1 when it never does. */
  function ClosingIndex(text: string, start: nat, open: char, close: char): (k: int)
    requires start < |text| && text[start] == open && open != close
    ensures k == -1 || (start < k < |text| && text[k] == close && DepthThrough(text, start, k, open, close) == 0)
    ensures forall j :: start <= j < |text| && (k == -1 || j < k) ==> DepthThrough(text, start, j, open, close) > 0
  {
    ClosingFrom(text, start, start, open, close)
  }

  /** The walk's loop: count openers and closers from `start` and stop where they match. */
  method MatchingClose(text: string, start: nat, open: char, close: char) returns (k: int)
    requires start < |text| && text[start] == open && open != close
    ensures k == ClosingIndex(text, start, open, close)
  {
    var count := 0;
    var i := start;
    while i < |text|
      invariant start <= i <= |text|
      invariant count == Balance(text[start..i], open, close)
      invariant i > start ==> count > 0
      invariant ClosingIndex(text, start, open, close) == ClosingFrom(text, start, i, open, close)
      decreases |text| - i
    {
      BalanceSnoc(text, start, i, open, close);
      if text[i] == open {
        count := count + 1;
      } else if text[i] == close {
        count := count - 1;
        if count == 0 {
          return i;
        }
      }
      i := i + 1;
    }
    return -1;
  }

  /** The candidate of one strategy of the walk: from the first opener to its matching
      closer. */
  function WalkCandidate(text: string, open: char, close: char): (c: Option<string>)
    requires open != close
    ensures c.Some? ==>
      |c.value| >= 2 && c.value[0] == open && c.value[|c.value| - 1] == close
      && Balance(c.value, open, close) == 0
  {
    var a := IndexOf(text, open);
    if a == -1 then None
    else
      var k := ClosingIndex(text, a, open, close);
      if k == -1 then None else Some(text[a..k + 1])
  }

  /** What a strategy yields: the value decoded, and how many decodes were tried. */
  datatype Extraction = Extraction(result: Option<Value>, parses: nat)

  /** A line the fallback tries: its stripped form starts with `[` or `{`. */
  predicate IsCandidateLine(line: string) {
    var l := Strip(line);
    StartsWith(l, "[") || StartsWith(l, "{")
  }

  /** The line-by-line fallback: the first candidate line that decodes wins. */
  function FromLines(lines: seq<string>, loads: string -> Option<Value>): (e: Extraction)
    ensures e.parses <= |lines|
  {
    if lines == [] then Extraction(None, 0)
    else if IsCandidateLine(lines[0]) && loads(Strip(lines[0])).Some? then
      Extraction(loads(Strip(lines[0])), 1)
    else
      var rest := FromLines(lines[1..], loads);
      Extraction(rest.result, rest.parses + (if IsCandidateLine(lines[0]) then 1 else 0))
  }

  /** `extract_and_parse_json`: the array walk, then the object walk, then the lines. */
  function Extract(text: string, loads: string -> Option<Value>): Extraction {
    var arr := WalkCandidate(text, '[', ']');
    if arr.Some? && loads(arr.value).Some? then Extraction(loads(arr.value), 1)
    else
      var p1 := if arr.Some? then 1 else 0;
      var obj := WalkCandidate(text, '{', '}');
      if obj.Some? && loads(obj.value).Some? then Extraction(loads(obj.value), p1 + 1)
      else
        var p2 := p1 + (if obj.Some? then 1 else 0);
        var l := FromLines(Split(text, '\n'), loads);
        Extraction(l.result, p2 + l.parses)
  }

  /** The fallback's result is that of the first candidate line that decodes, every
      earlier candidate line having failed; and it is `None` only when none decodes. */
  lemma {:induction false} FromLinesFirstSuccess(lines: seq<string>, loads: string -> Option<Value>)
    ensures var e := FromLines(lines, loads);
      (e.result.Some? ==>
         exists i :: 0 <= i < |lines| && IsCandidateLine(lines[i])
           && loads(Strip(lines[i])) == e.result
           && forall j :: 0 <= j < i && IsCandidateLine(lines[j]) ==> loads(Strip(lines[j])).None?)
      && (e.result.None? <==> forall i :: 0 <= i < |lines| && IsCandidateLine(lines[i]) ==> loads(Strip(lines[i])).None?)
  {
    if lines != [] {
      FromLinesFirstSuccess(lines[1..], loads);
      var e := FromLines(lines, loads);
      var rest := FromLines(lines[1..], loads);
      if !(IsCandidateLine(lines[0]) && loads(Strip(lines[0])).Some?) {
        assert e.result == rest.result;
        if e.result.Some? {
          var i :| 0 <= i < |lines[1..]| && IsCandidateLine(lines[1..][i])
            && loads(Strip(lines[1..][i])) == e.result
            && forall j :: 0 <= j < i && IsCandidateLine(lines[1..][j]) ==> loads(Strip(lines[1..][j])).None?;
          assert lines[i + 1] == lines[1..][i];
          forall j | 0 <= j < i + 1 && IsCandidateLine(lines[j])
            ensures loads(Strip(lines[j])).None?
          {
            if j > 0 {
              assert lines[j] == lines[1..][j - 1];
            }
          }
        }
        assert (forall i :: 0 <= i < |lines| && IsCandidateLine(lines[i]) ==> loads(Strip(lines[i])).None?)
          <==> (forall i :: 0 <= i < |lines[1..]| && IsCandidateLine(lines[1..][i]) ==> loads(Strip(lines[1..][i])).None?)
        by {
          forall i | 0 <= i < |lines[1..]|
            ensures lines[1..][i] == lines[i + 1]
          {
          }
        }
      }
    }
  }

  /** The walk decodes at most one candidate per bracket kind, however many later
      brackets the text holds, plus one per candidate line. */
  lemma ExtractParses(text: string, loads: string -> Option<Value>)
    ensures Extract(text, loads).parses <= 2 + |Split(text, '\n')|
    ensures Extract(text, loads).result.Some? ==>
      (WalkCandidate(text, '[', ']').Some? && Extract(text, loads).result == loads(WalkCandidate(text, '[', ']').value))
      || (WalkCandidate(text, '{', '}').Some? && Extract(text, loads).result == loads(WalkCandidate(text, '{', '}').value))
      || FromLines(Split(text, '\n'), loads).result == Extract(text, loads).result
  {
  }

  /** One strategy of the walk: find the first opener, walk to its matching closer, and
      decode what lies between them. */
  method TryWalk(text: string, open: char, close: char, loads: string -> Option<Value>)
    returns (v: Option<Value>)
    requires open != close
    ensures v == (match WalkCandidate(text, open, close)
                  case None => None
                  case Some(c) => loads(c))
  {
    var start := IndexOf(text, open);
    if start == -1 {
      return None;
    }
    var k := MatchingClose(text, start, open, close);
    if k == -1 {
      return None;
    }
    v := loads(text[start..k + 1]);
  }

  /** The line-by-line fallback, with its loop. */
  method TryLines(lines: seq<string>, loads: string -> Option<Value>) returns (v: Option<Value>)
    ensures v == FromLines(lines, loads).result
  {
    var n := 0;
    while n < |lines|
      invariant 0 <= n <= |lines|
      invariant FromLines(lines, loads).result == FromLines(lines[n..], loads).result
    {
      assert lines[n..][1..] == lines[n + 1..];
      var line := Strip(lines[n]);
      if StartsWith(line, "[") || StartsWith(line, "{") {
        v := loads(line);
        if v.Some? {
          return v;
        }
      }
      n := n + 1;
    }
    return None;
  }

  /** `extract_and_parse_json` */
  method ExtractAndParseJson(text: string, loads: string -> Option<Value>) returns (r: Option<Value>)
    ensures r == Extract(text, loads).result
  {
    r := TryWalk(text, '[', ']', loads);
    if r.Some? {
      return r;
    }
    r := TryWalk(text, '{', '}', loads);
    if r.Some? {
      return r;
    }
    r := TryLines(Split(text, '\n'), loads);
  }

  // ----- The whole request -----

  /** The outcome of `cortex_request` given the rows of the completion query and of the
      repair query: the value returned, whether the repair request was issued, and how
      many decodes were tried. */
  datatype Reply = Reply(result: Option<Value>, repaired: bool, parses: nat)

  function Respond(rows: seq<Value>, repairRows: seq<Value>, jsonOutput: bool,
                   loads: string -> Option<Value>): Reply
  {
    match ResponseText(rows)
    case None => Reply(None, false, 0)
    case Some(s) =>
      if !jsonOutput then Reply(Some(VStr(s)), false, 0)
      else if FirstPass(s, loads).Some? then Reply(FirstPass(s, loads), false, 1)
      else
        var p := if NaiveCandidate(s).Some? then 1 else 0;
        var e := Repaired(repairRows, loads);
        Reply(e.result, true, p + e.parses)
  }

  /** The second pass on the reply to the repair request: the stripped text goes through
      the walk, and a falsy value counts as no value. */
  function Repaired(repairRows: seq<Value>, loads: string -> Option<Value>): Extraction {
    match ResponseText(repairRows)
    case None => Extraction(None, 0)
    case Some(t) =>
      var e := Extract(Strip(t), loads);
      Extraction(if e.result.Some? && Truthy(e.result.value) then e.result else None, e.parses)
  }

  /** An empty result or a null response ends the request: no decode and no repair. */
  lemma EmptyResponseIsTerminal(rows: seq<Value>, repairRows: seq<Value>, jsonOutput: bool,
                                loads: string -> Option<Value>)
    requires ResponseText(rows).None?
    ensures Respond(rows, repairRows, jsonOutput, loads) == Reply(None, false, 0)
  {
  }

  /** Without structured output the reply text comes back unchanged and is never decoded. */
  lemma RawTextUnchanged(rows: seq<Value>, repairRows: seq<Value>, loads: string -> Option<Value>)
    requires ResponseText(rows).Some?
    ensures Respond(rows, repairRows, false, loads) == Reply(Some(VStr(ResponseText(rows).value)), false, 0)
  {
  }

  /** A first-pass decode is returned as it is, falsy or not; only the repaired path
      rejects a falsy value, and the repaired text is never repaired again. */
  lemma RepairOnlyOnce(rows: seq<Value>, repairRows: seq<Value>, loads: string -> Option<Value>)
    ensures var r := Respond(rows, repairRows, true, loads);
      (r.repaired ==> r.result.None? || Truthy(r.result.value))
      && (!r.repaired && r.result.Some? ==> r.parses == 1 && r.result == FirstPass(ResponseText(rows).value, loads))
      && (r.repaired <==> ResponseText(rows).Some? && FirstPass(ResponseText(rows).value, loads).None?)
      && r.parses <= 3 + (if r.repaired && ResponseText(repairRows).Some?
                          then |Split(Strip(ResponseText(repairRows).value), '\n')| else 0)
  {
    var r := Respond(rows, repairRows, true, loads);
    if r.repaired && ResponseText(repairRows).Some? {
      ExtractParses(Strip(ResponseText(repairRows).value), loads);
    }
  }

  /** A backend busy for every attempt reaches the request as an empty response. */
  lemma BusyBackendGivesNothing(script: seq<Outcome>, pos: nat, repairRows: seq<Value>,
                                jsonOutput: bool, loads: string -> Option<Value>)
    requires pos + 3 <= |script|
    requires forall i :: pos <= i < pos + 3 ==> script[i].Failure? && IsTransient(script[i].message)
    ensures Respond(Run(script, pos, 0, MaxRetries).rows, repairRows, jsonOutput, loads) == Reply(None, false, 0)
  {
    BusyBackend(script, pos);
  }

  /** What is left of `cortex_request` once the completion query has answered with
      `rows`, from the state `sent0` to the state `sent`: the value returned is that of
      `Respond`, and the repair query is sent (with its retries) only when `Respond`
      repairs. */
  ghost predicate Answered(script: seq<Outcome>, loaded: bool, sent0: seq<Query>, rows: seq<Value>,
                          jsonOutput: bool, model: string, loads: string -> Option<Value>,
                          r: Option<Value>, sent: seq<Query>)
  {
    var text := ResponseText(rows);
    var t2 := if loaded && text.Some? then Run(script, |sent0|, 0, MaxRetries) else Trace([], 0, []);
    var reply := Respond(rows, t2.rows, jsonOutput, loads);
    r == reply.result
    && (!reply.repaired ==> sent == sent0)
    && (reply.repaired ==>
          sent == sent0 + Repeat(Query(CompletionCommand(model, RepairPrompt(text.value)), []), t2.attempts))
  }

  /** `cortex_request` against the query layer: the completion query is sent with its
      retries, and the rest is `Answered`. */
  method CortexRequest(db: QueryLayer, prompt: string, jsonOutput: bool, model: string,
                       loads: string -> Option<Value>) returns (r: Option<Value>)
    modifies db
    ensures var q1 := Query(CompletionCommand(model, prompt), []);
      var t1 := if old(db.appLoaded) then Run(db.script, |old(db.sent)|, 0, MaxRetries) else Trace([], 0, []);
      Answered(db.script, old(db.appLoaded), old(db.sent) + Repeat(q1, t1.attempts), t1.rows,
               jsonOutput, model, loads, r, db.sent)
    ensures db.appLoaded == old(db.appLoaded)
  {
    var q1 := Query(CompletionCommand(model, prompt), []);
    var rows := db.ExecuteQuery(q1, MaxRetries);
    r := Interpret(db, rows, jsonOutput, model, loads);
  }

  /** What `cortex_request` does with the rows of the completion query: read the reply,
      decode it when structured output is asked for, and repair it at most once. */
  method Interpret(db: QueryLayer, rows: seq<Value>, jsonOutput: bool, model: string,
                   loads: string -> Option<Value>) returns (r: Option<Value>)
    modifies db
    ensures Answered(db.script, old(db.appLoaded), old(db.sent), rows, jsonOutput, model, loads, r, db.sent)
    ensures db.appLoaded == old(db.appLoaded)
  {
    var text := ResponseText(rows);
    if text.None? {
      EmptyResponseIsTerminal(rows, [], jsonOutput, loads);
      return None;
    }
    ghost var t2 := if db.appLoaded then Run(db.script, |db.sent|, 0, MaxRetries) else Trace([], 0, []);
    if !jsonOutput {
      RawTextUnchanged(rows, t2.rows, loads);
      return Some(VStr(text.value));
    }
    var first := FirstPass(text.value, loads);
    if first.Some? {
      RespondFirst(rows, t2.rows, loads);
      return first;
    }
    r := Repair(db, model, text.value, loads);
    RespondRepaired(rows, t2.rows, loads);
  }

  /** The first-pass branch of `Respond`, for a reply whose first pass decodes. */
  lemma RespondFirst(rows: seq<Value>, repairRows: seq<Value>, loads: string -> Option<Value>)
    requires ResponseText(rows).Some? && FirstPass(ResponseText(rows).value, loads).Some?
    ensures !Respond(rows, repairRows, true, loads).repaired
    ensures Respond(rows, repairRows, true, loads).result == FirstPass(ResponseText(rows).value, loads)
  {
  }

  /** The repaired branch of `Respond`, for a reply whose first pass failed. */
  lemma RespondRepaired(rows: seq<Value>, repairRows: seq<Value>, loads: string -> Option<Value>)
    requires ResponseText(rows).Some? && FirstPass(ResponseText(rows).value, loads).None?
    ensures Respond(rows, repairRows, true, loads).repaired
    ensures Respond(rows, repairRows, true, loads).result == Repaired(repairRows, loads).result
  {
  }

  /** The repair request of `cortex_request` and the second pass on its reply. */
  method Repair(db: QueryLayer, model: string, reply: string, loads: string -> Option<Value>)
    returns (r: Option<Value>)
    modifies db
    ensures var t := if old(db.appLoaded) then Run(db.script, |old(db.sent)|, 0, MaxRetries) else Trace([], 0, []);
      r == Repaired(t.rows, loads).result
      && db.sent == old(db.sent) + Repeat(Query(CompletionCommand(model, RepairPrompt(reply)), []), t.attempts)
    ensures db.appLoaded == old(db.appLoaded)
  {
    var q := Query(CompletionCommand(model, RepairPrompt(reply)), []);
    var rows := db.ExecuteQuery(q, MaxRetries);
    var repaired := ResponseText(rows);
    if repaired.None? {
      return None;
    }
    var result := ExtractAndParseJson(Strip(repaired.value), loads);
    if result.Some? && Truthy(result.value) {
      return result;
    }
    return None;
  }
}
