/** `modules/session_management.py`: saving the discovery session to the sessions table,
    listing the saved sessions and loading one back into the session store. The table is
    reached only through rows: what a query returns is a parameter, and what a save writes
    is returned as a record. JSON parsing is the parameter `loads`, `str` on a non-string
    value is `show`, and the fresh UUID and the formatted clock time are parameters. */
module SessionManagement {
  import opened Text
  import opened Values
  import opened SessionStore
  import opened Questions
  import Sales
  import SalesReport

  // ----- clear_session_data -----

  /** The keys `clear_session_data` removes. */
  const ClearKeys: seq<string> := [
    "questions", "company_info", "selected_sf_account", "current_session_id",
    "company_summary_data", "roadmap", "roadmap_df", "competitive_strategy",
    "outreach_content", "people_research", "business_case", "initial_value_hypothesis",
    "outreach_emails", "linkedin_messages", "notes_content", "recommended_initiatives",
    "contact_name", "contact_title", "competitor"]

  /** Deletes every listed key that is present and reports success. */
  method ClearSessionData(s: Session) returns (cleared: bool)
    modifies s
    ensures cleared
    ensures s.state == Without(old(s.state), Members(ClearKeys))
    ensures forall i :: 0 <= i < |ClearKeys| ==> ClearKeys[i] !in s.state
  {
    DeleteKeys(s, ClearKeys);
    cleared := true;
  }

  // ----- generate_session_name -----

  /** `company_info` as the module normalises it: a string is parsed as JSON and taken as
      a bare website when it does not parse; whatever is then not a dictionary is `{}`. */
  function CompanyInfo(info: Value, loads: string -> Option<Value>): (r: Value)
    ensures r.VDict?
    ensures info.VDict? ==> r == info
    ensures info.VStr? && loads(info.s).None? ==> r == VDict([("website", info)])
    ensures !info.VStr? && !info.VDict? ==> r == VDict([])
  {
    var parsed :=
      if !info.VStr? then info
      else if loads(info.s).Some? then loads(info.s).value
      else VDict([("website", info)]);
    if parsed.VDict? then parsed else VDict([])
  }

  /** The first label of a website's host, title-cased: the scheme and `www.` removed,
      cut at the first dot. */
  function WebsiteStem(website: string): (r: string)
    ensures |r| <= |website|
    ensures '.' !in r
  {
    var noHttps := Replace(website, "https://", "");
    var noHttp := Replace(noHttps, "http://", "");
    var host := Replace(noHttp, "www.", "");
    ReplaceByEmptyShrinks(website, "https://");
    ReplaceByEmptyShrinks(noHttps, "http://");
    ReplaceByEmptyShrinks(noHttp, "www.");
    SplitHead(host, '.');
    var stem := Split(host, '.')[0];
    var r := Title(stem);
    TitleKeepsCased(stem);
    assert forall i :: 0 <= i < |r| ==> r[i] != '.';
    r
  }

  /** Title-casing keeps every character cased exactly when it was. */
  lemma TitleKeepsCased(s: string)
    ensures forall i :: 0 <= i < |s| ==> IsCased(Title(s)[i]) == IsCased(s[i])
  {
    TitleFromKeepsCased(s, false);
  }

  lemma {:induction false} TitleFromKeepsCased(s: string, previousCased: bool)
    ensures forall i :: 0 <= i < |s| ==> IsCased(TitleFrom(s, previousCased)[i]) == IsCased(s[i])
    decreases |s|
  {
    if s != [] {
      TitleFromKeepsCased(s[1..], IsCased(s[0]));
      var r := TitleFrom(s, previousCased);
      assert r == [r[0]] + TitleFrom(s[1..], IsCased(s[0]));
      forall i | 0 < i < |s|
        ensures IsCased(r[i]) == IsCased(s[i])
      {
        assert r[i] == TitleFrom(s[1..], IsCased(s[0]))[i - 1];
      }
    }
  }

  const UnknownCompany: string := "Unknown Company"

  /** The company part of the session name: a truthy `name` (through `str`), else the stem
      of a truthy website, else "Unknown Company". `None` stands for the exception raised
      when the website is truthy but not a string. */
  function CompanyPart(info: Value, show: Value -> string): (r: Option<string>)
    requires info.VDict?
    ensures Truthy(Get(info, "name", VNone)) ==> r == Some(PyStr(Get(info, "name", VNone), show))
    ensures r.None? <==>
      !Truthy(Get(info, "name", VNone)) && Truthy(Get(info, "website", VNone)) && !Get(info, "website", VNone).VStr?
    ensures !Truthy(Get(info, "name", VNone)) && !Truthy(Get(info, "website", VNone)) ==> r == Some(UnknownCompany)
  {
    var name := Get(info, "name", VNone);
    var website := Get(info, "website", VNone);
    if Truthy(name) then Some(PyStr(name, show))
    else if Truthy(website) then (if website.VStr? then Some(WebsiteStem(website.s)) else None)
    else Some(UnknownCompany)
  }

  const SessionInfix: string := " - Discovery Session ("

  /** `f"{company_name} - Discovery Session ({timestamp})"`; the clock reading is given
      already formatted. */
  function SessionName(info: Value, timestamp: string, show: Value -> string): (r: Option<string>)
    requires info.VDict?
    ensures r.Some? <==> CompanyPart(info, show).Some?
    ensures r.Some? ==> StartsWith(r.value, CompanyPart(info, show).value)
    ensures r.Some? ==> |r.value| > |timestamp| && r.value[|r.value| - |timestamp| - 1..] == timestamp + ")"
  {
    match CompanyPart(info, show)
    case None => None
    case Some(part) =>
      var name := part + SessionInfix + timestamp + ")";
      assert name[..|part|] == part;
      Some(name)
  }

  /** A string that is not JSON names the session after its host: the part is the
      website stem, and it holds no dot. */
  lemma BareWebsiteName(website: string, loads: string -> Option<Value>, show: Value -> string)
    requires website != [] && loads(website).None?
    ensures CompanyPart(CompanyInfo(VStr(website), loads), show) == Some(WebsiteStem(website))
    ensures '.' !in CompanyPart(CompanyInfo(VStr(website), loads), show).value
  {
    var info := CompanyInfo(VStr(website), loads);
    assert info == VDict([("website", VStr(website))]);
    KeyIndexAt(info.entries, "website", 0);
    assert Get(info, "name", VNone) == VNone;
  }

  // ----- save_current_session -----

  /** A question the answer count can read: anything but a dictionary is skipped, and a
      dictionary's `answer` must be a string for `.strip()`. */
  predicate Countable(q: Value) {
    !q.VDict? || StrOrAbsent(q, "answer")
  }

  /** A text field as saved: a string as it is, another truthy value through `str`, and
      "" for a falsy one. */
  function TextField(v: Value, show: Value -> string): string {
    if v.VStr? then v.s else if Truthy(v) then show(v) else ""
  }

  /** A dictionary field as saved: anything else is `{}`. */
  function DictField(v: Value): (r: Value)
    ensures r.VDict?
  {
    if v.VDict? then v else VDict([])
  }

  /** A list field as saved: anything else is `[]`. */
  function ListField(v: Value): (r: Value)
    ensures r.VList?
  {
    if v.VList? then v else VList([])
  }

  /** The `j`-th cell of a column, `None` past its end. */
  function Cell(column: Value, j: nat): Value {
    if column.VList? && j < |column.items| then column.items[j] else VNone
  }

  /** The saved roadmap: `to_dict('records')` of a frame that is not empty, else `[]`. A
      frame held as rows is its own records; one held as columns gives a record per cell
      of its first column, naming every column's cell in that row; a value that is no
      frame has no `to_dict` and saves as `[]`. */
  function Records(v: Value): (r: Value)
    ensures r.VList?
    ensures v.VList? ==> r == v
    ensures !v.VList? && !v.VDict? ==> r == VList([])
    ensures v.VDict? && (v.entries == [] || !v.entries[0].1.VList?) ==> r == VList([])
    ensures v.VDict? && v.entries != [] && v.entries[0].1.VList? ==>
      |r.items| == |v.entries[0].1.items|
      && (forall j :: 0 <= j < |r.items| ==> r.items[j].VDict? && |r.items[j].entries| == |v.entries|)
      && (forall j, k :: 0 <= j < |r.items| && 0 <= k < |v.entries| ==>
            r.items[j].entries[k] == (v.entries[k].0, Cell(v.entries[k].1, j)))
  {
    if v.VList? then v
    else if v.VDict? && v.entries != [] && v.entries[0].1.VList? then
      VList(seq(|v.entries[0].1.items|, j requires 0 <= j =>
        VDict(seq(|v.entries|, k requires 0 <= k < |v.entries| => (v.entries[k].0, Cell(v.entries[k].1, j))))))
    else VList([])
  }

  /** Saving a restored roadmap again saves the same records, and a frame held as columns
      keeps its row count and its column names in every record. */
  lemma {:induction false} RecordsStable(v: Value)
    ensures Records(Records(v)) == Records(v)
    ensures v.VDict? && v.entries != [] && v.entries[0].1.VList? ==>
      forall j :: 0 <= j < |Records(v).items| ==>
        Keys(Records(v).items[j].entries) == Keys(v.entries)
  {
    if v.VDict? && v.entries != [] && v.entries[0].1.VList? {
      forall j | 0 <= j < |Records(v).items|
        ensures Keys(Records(v).items[j].entries) == Keys(v.entries)
      {
        var row := Records(v).items[j].entries;
        assert |row| == |v.entries|;
        assert forall k :: 0 <= k < |row| ==> Keys(row)[k] == Keys(v.entries)[k];
      }
    }
  }

  /** The keys of `full_session_state`, in their order. */
  const SavedKeys: seq<string> := [
    "company_info", "company_summary_data", "questions", "business_case", "roadmap",
    "competitor_strategy", "initial_value_hypothesis", "outreach_emails",
    "linkedin_messages", "people_research", "notes_content", "recommended_initiatives"]

  lemma SavedKeysDistinct()
    ensures forall i, j :: 0 <= i < j < |SavedKeys| ==> SavedKeys[i] != SavedKeys[j]
    ensures forall i :: 0 <= i < |SavedKeys| ==> SavedKeys[i] != "roadmap_df" && SavedKeys[i] != "current_session_id"
  {
  }

  /** `full_session_state`: the twelve fields a load restores. */
  function FullState(m: map<string, Value>, info: Value, questions: seq<Value>, show: Value -> string): (r: Value)
    ensures r.VDict? && UniqueKeys(r.entries)
    ensures forall i :: 0 <= i < |r.entries| ==> r.entries[i].0 != "roadmap_df" && r.entries[i].0 != "current_session_id"
    ensures Find(r.entries, "questions") == Some(VList(questions))
    ensures Find(r.entries, "company_info") == Some(info)
    ensures Find(r.entries, "roadmap") == Some(Records(GetOr(m, "roadmap", VList([]))))
    ensures Find(r.entries, "roadmap").Some? && Find(r.entries, "roadmap").value.VList?
  {
    var values := [
      info,
      GetOr(m, "company_summary_data", VDict([])),
      VList(questions),
      VStr(TextField(GetOr(m, "business_case", VStr("")), show)),
      Records(GetOr(m, "roadmap", VList([]))),
      VStr(TextField(GetOr(m, "competitor_strategy", VStr("")), show)),
      VStr(TextField(GetOr(m, "initial_value_hypothesis", VStr("")), show)),
      DictField(GetOr(m, "outreach_emails", VDict([]))),
      DictField(GetOr(m, "linkedin_messages", VDict([]))),
      ListField(GetOr(m, "people_research", VList([]))),
      VStr(TextField(GetOr(m, "notes_content", VStr("")), show)),
      ListField(GetOr(m, "recommended_initiatives", VList([])))];
    var entries := seq(|SavedKeys|, i requires 0 <= i < |SavedKeys| => (SavedKeys[i], values[i]));
    SavedKeysDistinct();
    KeyIndexAt(entries, "company_info", 0);
    KeyIndexAt(entries, "questions", 2);
    KeyIndexAt(entries, "roadmap", 4);
    VDict(entries)
  }

  /** The row a save merges into the sessions table. The text columns business case,
      competitor strategy and value hypothesis, and the e-mail, LinkedIn and people columns,
      are the same values as the saved state's and are read from `fullState`. */
  datatype SavedSession = SavedSession(
    id: Value, name: string, userEmail: Value, companyName: Value, companyWebsite: Value,
    competitor: Value, contactName: Value, contactTitle: Value,
    questions: seq<Value>, answers: nat, total: nat, completion: real, roadmapData: Value,
    fullState: Value)

  /** The store after a save, and the row written (`None` when it returns `False`). */
  datatype Saving = Saving(state: map<string, Value>, row: Option<SavedSession>)

  /** The id the save uses: a truthy `current_session_id`, else the fresh one. */
  function SessionId(m: map<string, Value>, newId: string): (id: Value)
    ensures Truthy(GetOr(m, "current_session_id", VNone)) ==> id == m["current_session_id"]
  {
    var current := GetOr(m, "current_session_id", VNone);
    if Truthy(current) then current else VStr(newId)
  }

  /** The store after the id is fixed: only a missing or falsy id is replaced. */
  function WithSessionId(m: map<string, Value>, newId: string): (r: map<string, Value>)
    ensures "current_session_id" in r && r["current_session_id"] == SessionId(m, newId)
    ensures r == m || (r == m["current_session_id" := VStr(newId)] && !Truthy(GetOr(m, "current_session_id", VNone)))
  {
    if Truthy(GetOr(m, "current_session_id", VNone)) then m else m["current_session_id" := VStr(newId)]
  }

  /** `company_info.get('website') or company_info.get('name')` */
  predicate HasCompany(info: Value) {
    Truthy(Get(info, "website", VNone)) || Truthy(Get(info, "name", VNone))
  }

  /** The row written for a company, once the id is fixed; `None` when naming the session
      or counting its answers raises. */
  function SavedRow(m: map<string, Value>, info: Value, id: Value, timestamp: string, show: Value -> string)
    : (r: Option<SavedSession>)
    requires info.VDict?
    ensures r.Some? <==> (SessionName(info, timestamp, show).Some?
      && forall i :: 0 <= i < |AsList(GetOr(m, "questions", VList([])))| ==> Countable(AsList(GetOr(m, "questions", VList([])))[i]))
    ensures r.Some? ==> r.value.id == id && r.value.questions == AsList(GetOr(m, "questions", VList([])))
    ensures r.Some? ==> r.value.fullState == FullState(m, info, r.value.questions, show)
    ensures r.Some? ==> Find(r.value.fullState.entries, "roadmap") == Some(r.value.roadmapData)
    ensures r.Some? ==>
      r.value.companyName == Get(info, "name", VStr("")) && r.value.companyWebsite == Get(info, "website", VStr(""))
    ensures r.Some? ==>
      && r.value.competitor == GetOr(m, "competitor", VStr(""))
      && r.value.contactName == GetOr(m, "contact_name", VStr(""))
      && r.value.contactTitle == GetOr(m, "contact_title", VStr(""))
      && r.value.userEmail == GetOr(m, "user_email", VStr("demo_user@company.com"))
  {
    var name := SessionName(info, timestamp, show);
    var questions := AsList(GetOr(m, "questions", VList([])));
    if name.None? || !(forall i :: 0 <= i < |questions| ==> Countable(questions[i])) then None
    else
      var answers := |Sales.Answers(questions)|;
      Some(SavedSession(
        id, name.value, GetOr(m, "user_email", VStr("demo_user@company.com")),
        Get(info, "name", VStr("")), Get(info, "website", VStr("")),
        GetOr(m, "competitor", VStr("")), GetOr(m, "contact_name", VStr("")), GetOr(m, "contact_title", VStr("")),
        questions, answers, |questions|, SalesReport.CompletionRate(answers, |questions|),
        Records(GetOr(m, "roadmap", VList([]))), FullState(m, info, questions, show)))
  }

  /** What `save_current_session` does to the store and the table. */
  function Save(m: map<string, Value>, newId: string, timestamp: string, show: Value -> string,
                loads: string -> Option<Value>): Saving
  {
    var info := CompanyInfo(GetOr(m, "company_info", VDict([])), loads);
    if !HasCompany(info) then Saving(m, None)
    else Saving(WithSessionId(m, newId), SavedRow(m, info, SessionId(m, newId), timestamp, show))
  }

  /** Validates the company, fixes the session id, names the session, counts the answers
      and writes the row; every exception is caught and reported as `False`. */
  method SaveCurrentSession(s: Session, newId: string, timestamp: string, show: Value -> string,
                            loads: string -> Option<Value>)
    returns (saved: bool, row: Option<SavedSession>)
    modifies s
    ensures saved == row.Some?
    ensures Save(old(s.state), newId, timestamp, show, loads) == Saving(s.state, row)
  {
    var m := s.state;
    var info := CompanyInfo(GetOr(m, "company_info", VDict([])), loads);
    if !Truthy(Get(info, "website", VNone)) && !Truthy(Get(info, "name", VNone)) {
      return false, None;
    }
    var id := GetOr(m, "current_session_id", VNone);
    if !Truthy(id) {
      id := VStr(newId);
      s.state := s.state["current_session_id" := id];
    }
    assert s.state == WithSessionId(m, newId) && id == SessionId(m, newId);
    row := WriteRow(m, info, id, timestamp, show);
    saved := row.Some?;
  }

  /** Names the session, counts the answers and builds the row. */
  method WriteRow(m: map<string, Value>, info: Value, id: Value, timestamp: string, show: Value -> string)
    returns (row: Option<SavedSession>)
    requires info.VDict?
    ensures row == SavedRow(m, info, id, timestamp, show)
  {
    var name := SessionName(info, timestamp, show);
    if name.None? {
      return None;
    }
    var questions := AsList(GetOr(m, "questions", VList([])));
    if !(forall i :: 0 <= i < |questions| ==> Countable(questions[i])) {
      return None;
    }
    var answered := Sales.AnswersOf(questions);
    var answers := |answered|;
    row := Some(SavedSession(
      id, name.value, GetOr(m, "user_email", VStr("demo_user@company.com")),
      Get(info, "name", VStr("")), Get(info, "website", VStr("")),
      GetOr(m, "competitor", VStr("")), GetOr(m, "contact_name", VStr("")), GetOr(m, "contact_title", VStr("")),
      questions, answers, |questions|, SalesReport.CompletionRate(answers, |questions|),
      Records(GetOr(m, "roadmap", VList([]))), FullState(m, info, questions, show)));
  }

  /** A save touches the store only to give it a session id, and the row it writes carries
      the id the store then holds; a session with neither website nor name is not saved. */
  lemma SaveKeepsSessionId(m: map<string, Value>, newId: string, timestamp: string, show: Value -> string,
                           loads: string -> Option<Value>)
    ensures var r := Save(m, newId, timestamp, show, loads);
      r.state == m || (r.state == m["current_session_id" := VStr(newId)] && !Truthy(GetOr(m, "current_session_id", VNone)))
    ensures var r := Save(m, newId, timestamp, show, loads);
      r.row.Some? ==> "current_session_id" in r.state && r.state["current_session_id"] == r.row.value.id
    ensures !HasCompany(CompanyInfo(GetOr(m, "company_info", VDict([])), loads)) ==>
      Save(m, newId, timestamp, show, loads) == Saving(m, None)
  {
  }

  /** The counts written: at most all questions answered, a percentage in [0, 100], and
      no answers exactly when no saved question is answered. */
  lemma SaveCounts(m: map<string, Value>, newId: string, timestamp: string, show: Value -> string,
                   loads: string -> Option<Value>)
    requires Save(m, newId, timestamp, show, loads).row.Some?
    ensures var row := Save(m, newId, timestamp, show, loads).row.value;
      row.answers <= row.total == |row.questions| && 0.0 <= row.completion <= 100.0
    ensures var row := Save(m, newId, timestamp, show, loads).row.value;
      row.answers == row.total ==> row.completion == (if row.total == 0 then 0.0 else 100.0)
    ensures var row := Save(m, newId, timestamp, show, loads).row.value;
      row.answers == 0 <==> forall i :: 0 <= i < |row.questions| ==> !Answered(row.questions[i])
  {
    var row := Save(m, newId, timestamp, show, loads).row.value;
    Sales.AnswersSpec(row.questions);
    SalesReport.CompletionRateBounds(row.answers, row.total);
  }

  // ----- get_saved_sessions -----

  /** The question total of one saved row: the length of a saved list, the summed lengths of
      a saved dictionary's values, and 0 for a missing cell, a cell that is not a string,
      text that does not parse, another parsed value or a raised `len`. */
  function RowTotal(cell: Value, loads: string -> Option<Value>): (r: nat)
    ensures cell.VNone? || !cell.VStr? || loads(cell.s).None? ==> r == 0
  {
    if !cell.VStr? then 0
    else match loads(cell.s)
      case Some(VList(items)) => |items|
      case Some(VDict(entries)) => (match LengthSum(entries, |entries|) case Some(n) => n case None => 0)
      case _ => 0
  }

  /** For category lists the summed lengths are the questions of every category. */
  lemma {:induction false} LengthSumOfLists(entries: seq<(string, Value)>, n: nat)
    requires n <= |entries|
    requires forall i :: 0 <= i < n ==> entries[i].1.VList?
    ensures LengthSum(entries, n) == Some(SalesReport.QuestionTotal(entries, n))
  {
    if n > 0 {
      LengthSumOfLists(entries, n - 1);
    }
  }

  /** A saved question list counts its questions; saved categories count the questions of
      all categories. */
  lemma RowTotalCounts(text: string, loads: string -> Option<Value>)
    requires loads(text).Some?
    ensures loads(text).value.VList? ==> RowTotal(VStr(text), loads) == |loads(text).value.items|
    ensures loads(text).value.VDict? && (forall i :: 0 <= i < |loads(text).value.entries| ==> loads(text).value.entries[i].1.VList?) ==>
      RowTotal(VStr(text), loads) == SalesReport.QuestionTotal(loads(text).value.entries, |loads(text).value.entries|)
  {
    var v := loads(text).value;
    if v.VDict? && forall i :: 0 <= i < |v.entries| ==> v.entries[i].1.VList? {
      LengthSumOfLists(v.entries, |v.entries|);
    }
  }

  /** A session row with its `TOTAL_QUESTIONS` column. */
  function WithTotal(row: Value, total: nat): (r: Value)
    requires row.VDict?
    ensures r.VDict? && Find(r.entries, "TOTAL_QUESTIONS") == Some(VInt(total))
    ensures forall k :: k != "TOTAL_QUESTIONS" ==> Find(r.entries, k) == Find(row.entries, k)
  {
    var entries := SetKey(row.entries, "TOTAL_QUESTIONS", VInt(total));
    forall k | k != "TOTAL_QUESTIONS"
      ensures Find(entries, k) == Find(row.entries, k)
    {
      SetKeyOthers(row.entries, "TOTAL_QUESTIONS", VInt(total), k);
    }
    VDict(entries)
  }

  /** The listing: each row of the query result gets the question total of its saved
      `DISCOVERY_QUESTIONS`. */
  method GetSavedSessions(rows: seq<Value>, loads: string -> Option<Value>) returns (sessions: seq<Value>)
    requires forall i :: 0 <= i < |rows| ==> rows[i].VDict?
    ensures |sessions| == |rows|
    ensures forall i :: 0 <= i < |rows| ==>
      sessions[i] == WithTotal(rows[i], RowTotal(Get(rows[i], "DISCOVERY_QUESTIONS", VNone), loads))
  {
    if rows == [] {
      return rows;
    }
    var totals: seq<nat> := [];
    for i := 0 to |rows|
      invariant |totals| == i
      invariant forall j :: 0 <= j < i ==> totals[j] == RowTotal(Get(rows[j], "DISCOVERY_QUESTIONS", VNone), loads)
    {
      totals := totals + [RowTotal(Get(rows[i], "DISCOVERY_QUESTIONS", VNone), loads)];
    }
    sessions := seq(|rows|, i requires 0 <= i < |rows| => WithTotal(rows[i], totals[i]));
  }

  // ----- load_session_data -----

  /** The keys a load removes before restoring. */
  const LoadClearKeys: seq<string> := [
    "company_info", "company_summary_data", "questions", "business_case", "roadmap",
    "competitor_strategy", "initial_value_hypothesis", "outreach_emails",
    "linkedin_messages", "people_research", "notes_content", "recommended_initiatives",
    "competitor", "contact_name", "contact_title"]

  /** `pd.DataFrame(value)` for a truthy roadmap: rows (a list) or columns (a dictionary)
      are kept as they are; any other value raises. */
  function Frame(v: Value): (r: Option<Value>)
    ensures r.Some? <==> v.VList? || v.VDict?
    ensures r.Some? ==> r.value == v
  {
    if v.VList? || v.VDict? then Some(v) else None
  }

  /** One step of the restoring loop: a truthy roadmap also becomes `roadmap_df`; `None`
      when building its frame raises. */
  function Assign(m: map<string, Value>, k: string, v: Value): (r: Option<map<string, Value>>)
    ensures r.None? <==> k == "roadmap" && Truthy(v) && Frame(v).None?
    ensures r.Some? ==> k in r.value && r.value[k] == v
    ensures r.Some? ==> forall x :: x != k && x != "roadmap_df" ==>
      (x in r.value <==> x in m) && (x in m ==> r.value[x] == m[x])
    ensures r.Some? && k == "roadmap" && Truthy(v) ==> "roadmap_df" in r.value && r.value["roadmap_df"] == v
  {
    if k == "roadmap" && Truthy(v) then
      match Frame(v)
      case None => None
      case Some(frame) => Some(m["roadmap" := frame]["roadmap_df" := frame])
    else Some(m[k := v])
  }

  /** The store after restoring, and whether no exception was raised. */
  datatype Restoring = Restoring(state: map<string, Value>, ok: bool)

  /** `for key, value in session_data.items(): ...`, stopping at the first exception with
      the assignments made so far. */
  function Restore(m: map<string, Value>, entries: seq<(string, Value)>): Restoring
    decreases |entries|
  {
    if entries == [] then Restoring(m, true)
    else match Assign(m, entries[0].0, entries[0].1)
      case None => Restoring(m, false)
      case Some(next) => Restore(next, entries[1..])
  }

  /** The restoring loop, one saved entry at a time. */
  method RestoreEntries(s: Session, entries: seq<(string, Value)>) returns (ok: bool)
    modifies s
    ensures Restore(old(s.state), entries) == Restoring(s.state, ok)
  {
    for i := 0 to |entries|
      invariant Restore(old(s.state), entries) == Restore(s.state, entries[i..])
    {
      assert entries[i..][0] == entries[i] && entries[i..][1..] == entries[i + 1..];
      var (k, v) := entries[i];
      if k == "roadmap" && Truthy(v) {
        var frame := Frame(v);
        if frame.None? {
          return false;
        }
        s.state := s.state["roadmap" := frame.value];
        s.state := s.state["roadmap_df" := frame.value];
      } else {
        s.state := s.state[k := v];
      }
    }
    assert entries[|entries|..] == [];
    ok := true;
  }

  /** Restoring succeeds exactly when every truthy saved roadmap is rows or columns. */
  lemma {:induction false} RestoreOkIff(m: map<string, Value>, entries: seq<(string, Value)>)
    ensures Restore(m, entries).ok <==>
      forall i :: 0 <= i < |entries| && entries[i].0 == "roadmap" && Truthy(entries[i].1) ==> Frame(entries[i].1).Some?
    decreases |entries|
  {
    if entries != [] {
      var a := Assign(m, entries[0].0, entries[0].1);
      if a.Some? {
        RestoreOkIff(a.value, entries[1..]);
        assert forall i :: 1 <= i < |entries| ==> entries[i] == entries[1..][i - 1];
      }
    }
  }

  /** A key no entry names, other than `roadmap_df`, keeps its presence and value. */
  lemma {:induction false} RestoreOthers(m: map<string, Value>, entries: seq<(string, Value)>, x: string)
    requires x != "roadmap_df"
    requires forall i :: 0 <= i < |entries| ==> entries[i].0 != x
    ensures x in Restore(m, entries).state <==> x in m
    ensures x in m ==> Restore(m, entries).state[x] == m[x]
    decreases |entries|
  {
    if entries != [] {
      var a := Assign(m, entries[0].0, entries[0].1);
      if a.Some? {
        RestoreOthers(a.value, entries[1..], x);
      }
    }
  }

  /** After a restore without exception every saved key holds its saved value, and a
      truthy saved roadmap is also the `roadmap_df`. */
  lemma {:induction false} RestoreSaved(m: map<string, Value>, entries: seq<(string, Value)>)
    requires UniqueKeys(entries)
    requires forall i :: 0 <= i < |entries| ==> entries[i].0 != "roadmap_df"
    requires Restore(m, entries).ok
    ensures forall i :: 0 <= i < |entries| ==>
      entries[i].0 in Restore(m, entries).state && Restore(m, entries).state[entries[i].0] == entries[i].1
    ensures forall i :: 0 <= i < |entries| && entries[i].0 == "roadmap" && Truthy(entries[i].1) ==>
      "roadmap_df" in Restore(m, entries).state && Restore(m, entries).state["roadmap_df"] == entries[i].1
    decreases |entries|
  {
    if entries != [] {
      var next := Assign(m, entries[0].0, entries[0].1).value;
      var rest := entries[1..];
      RestoreSaved(next, rest);
      assert forall i :: 0 <= i < |rest| ==> rest[i] == entries[i + 1];
      RestoreOthers(next, rest, entries[0].0);
      if entries[0].0 == "roadmap" && Truthy(entries[0].1) {
        RestoreOthersDf(next, rest);
      }
    }
  }

  /** Without a saved roadmap, `roadmap_df` is left as it was. */
  lemma {:induction false} RestoreOthersDf(m: map<string, Value>, entries: seq<(string, Value)>)
    requires forall i :: 0 <= i < |entries| ==> entries[i].0 != "roadmap_df" && entries[i].0 != "roadmap"
    ensures "roadmap_df" in Restore(m, entries).state <==> "roadmap_df" in m
    ensures "roadmap_df" in m ==> Restore(m, entries).state["roadmap_df"] == m["roadmap_df"]
    decreases |entries|
  {
    if entries != [] {
      var a := Assign(m, entries[0].0, entries[0].1);
      RestoreOthersDf(a.value, entries[1..]);
    }
  }

  /** The count in the success message reads every question of a truthy `questions`: a
      string or a dictionary is iterated without error, a list needs readable answers,
      and any other truthy value is not iterable. */
  predicate CountsOk(questions: Value) {
    !Truthy(questions) || questions.VStr? || questions.VDict?
    || (questions.VList? && forall i :: 0 <= i < |questions.items| ==> Countable(questions.items[i]))
  }

  /** What `load_session_data(session_id)` does, given the rows its query returned: the
      store afterwards and whether it returns `True`. */
  function Load(m: map<string, Value>, sessionId: string, rows: seq<Value>, loads: string -> Option<Value>): (r: Restoring)
    ensures rows == [] ==> r == Restoring(m, false)
  {
    if rows == [] then Restoring(m, false)
    else
      var raw := Lookup(rows[0], "FULL_SESSION_STATE");
      var data := if raw.None? then None else if raw.value.VStr? then loads(raw.value.s) else raw;
      if data.None? then Restoring(m, false)
      else
        var cleared := Without(m, Members(LoadClearKeys));
        if !data.value.VDict? then Restoring(cleared, false)
        else
          var entries := SetKey(data.value.entries, "current_session_id", VStr(sessionId));
          var restored := Restore(cleared, entries);
          if !restored.ok then restored
          else Restoring(restored.state, CountsOk(Get(VDict(entries), "questions", VList([]))))
  }

  /** Reads the saved state, clears the session's keys, restores every saved entry with
      the session id, and counts the answers for its message. */
  method LoadSessionData(s: Session, sessionId: string, rows: seq<Value>, loads: string -> Option<Value>)
    returns (loaded: bool)
    modifies s
    ensures Load(old(s.state), sessionId, rows, loads) == Restoring(s.state, loaded)
  {
    if rows == [] {
      return false;
    }
    var raw := Lookup(rows[0], "FULL_SESSION_STATE");
    if raw.None? {
      return false;
    }
    var data := raw.value;
    if data.VStr? {
      var parsed := loads(data.s);
      if parsed.None? {
        return false;
      }
      data := parsed.value;
    }
    DeleteKeys(s, LoadClearKeys);
    if !data.VDict? {
      return false;
    }
    var entries := SetKey(data.entries, "current_session_id", VStr(sessionId));
    loaded := RestoreEntries(s, entries);
    if loaded {
      loaded := CountsOk(Get(VDict(entries), "questions", VList([])));
    }
  }

  /** A failed load changes nothing before the session's keys are cleared: no row, no
      state column or text that does not parse leaves the store as it was. */
  lemma LoadFailsEarly(m: map<string, Value>, sessionId: string, rows: seq<Value>, loads: string -> Option<Value>)
    requires rows == [] || Lookup(rows[0], "FULL_SESSION_STATE").None?
      || (Lookup(rows[0], "FULL_SESSION_STATE").value.VStr? && loads(Lookup(rows[0], "FULL_SESSION_STATE").value.s).None?)
    ensures Load(m, sessionId, rows, loads) == Restoring(m, false)
  {
  }

  /** A saved state that is not a dictionary still costs the session its cleared keys. */
  lemma LoadNonDictionaryClears(m: map<string, Value>, sessionId: string, data: Value, loads: string -> Option<Value>)
    requires !data.VStr? && !data.VDict?
    ensures Load(m, sessionId, [VDict([("FULL_SESSION_STATE", data)])], loads)
      == Restoring(Without(m, Members(LoadClearKeys)), false)
  {
    KeyIndexAt([("FULL_SESSION_STATE", data)], "FULL_SESSION_STATE", 0);
  }

  /** The load succeeded, every saved entry holds its saved value, and the session id is
      the one loaded. */
  predicate RestoredFrom(r: Restoring, saved: seq<(string, Value)>, sessionId: string) {
    r.ok
    && (forall i :: 0 <= i < |saved| ==> saved[i].0 in r.state && r.state[saved[i].0] == saved[i].1)
    && "current_session_id" in r.state && r.state["current_session_id"] == VStr(sessionId)
  }

  /** A load whose one row holds a saved dictionary restores its entries and the id. */
  lemma LoadDictionary(later: map<string, Value>, sessionId: string, saved: seq<(string, Value)>,
                       loads: string -> Option<Value>)
    ensures var entries := SetKey(saved, "current_session_id", VStr(sessionId));
      var restored := Restore(Without(later, Members(LoadClearKeys)), entries);
      Load(later, sessionId, [VDict([("FULL_SESSION_STATE", VDict(saved))])], loads)
        == if restored.ok then Restoring(restored.state, CountsOk(Get(VDict(entries), "questions", VList([])))) else restored
  {
    KeyIndexAt([("FULL_SESSION_STATE", VDict(saved))], "FULL_SESSION_STATE", 0);
  }

  /** Loading a saved dictionary with unique keys, a list roadmap and readable answers
      succeeds and restores every saved entry and the id of the session loaded. */
  lemma LoadRestoresState(later: map<string, Value>, sessionId: string, saved: seq<(string, Value)>,
                          loads: string -> Option<Value>)
    requires UniqueKeys(saved)
    requires forall i :: 0 <= i < |saved| ==> saved[i].0 != "roadmap_df" && saved[i].0 != "current_session_id"
    requires forall i :: 0 <= i < |saved| && saved[i].0 == "roadmap" ==> saved[i].1.VList?
    requires CountsOk(Get(VDict(saved), "questions", VList([])))
    ensures RestoredFrom(Load(later, sessionId, [VDict([("FULL_SESSION_STATE", VDict(saved))])], loads), saved, sessionId)
  {
    var cleared := Without(later, Members(LoadClearKeys));
    KeyIndexAbsent(saved, "current_session_id");
    var entries := SetKey(saved, "current_session_id", VStr(sessionId));
    assert entries == saved + [("current_session_id", VStr(sessionId))];
    RestoreOkIff(cleared, entries);
    RestoreSaved(cleared, entries);
    var restored := Restore(cleared, entries);
    assert restored.ok;
    assert forall i :: 0 <= i < |saved| ==> entries[i] == saved[i];
    assert forall i :: 0 <= i < |saved| ==> saved[i].0 in restored.state && restored.state[saved[i].0] == saved[i].1;
    assert entries[|saved|] == ("current_session_id", VStr(sessionId));
    SetKeyOthers(saved, "current_session_id", VStr(sessionId), "questions");
    assert Get(VDict(entries), "questions", VList([])) == Get(VDict(saved), "questions", VList([]));
    LoadDictionary(later, sessionId, saved, loads);
  }

  /** Saving and then loading the saved state, into any store, succeeds and restores every
      saved field with its saved value and the id of the session loaded. */
  lemma SaveLoadRoundTrip(m: map<string, Value>, newId: string, timestamp: string, show: Value -> string,
                          loads: string -> Option<Value>, later: map<string, Value>, sessionId: string)
    requires Save(m, newId, timestamp, show, loads).row.Some?
    ensures var row := Save(m, newId, timestamp, show, loads).row.value;
      row.fullState.VDict? &&
      var r := Load(later, sessionId, [VDict([("FULL_SESSION_STATE", row.fullState)])], loads);
      RestoredFrom(r, row.fullState.entries, sessionId) && "questions" in r.state && r.state["questions"] == VList(row.questions)
  {
    var info := CompanyInfo(GetOr(m, "company_info", VDict([])), loads);
    SavedRowLoads(m, info, SessionId(m, newId), timestamp, show, loads, later, sessionId);
  }

  lemma SavedRowLoads(m: map<string, Value>, info: Value, id: Value, timestamp: string, show: Value -> string,
                      loads: string -> Option<Value>, later: map<string, Value>, sessionId: string)
    requires info.VDict? && SavedRow(m, info, id, timestamp, show).Some?
    ensures var row := SavedRow(m, info, id, timestamp, show).value;
      row.fullState.VDict? &&
      var r := Load(later, sessionId, [VDict([("FULL_SESSION_STATE", row.fullState)])], loads);
      RestoredFrom(r, row.fullState.entries, sessionId) && "questions" in r.state && r.state["questions"] == VList(row.questions)
  {
    var row := SavedRow(m, info, id, timestamp, show).value;
    var full := FullState(m, info, row.questions, show);
    assert row.fullState == full;
    var rk := KeyIndex(full.entries, "roadmap");
    assert forall i :: 0 <= i < |full.entries| && full.entries[i].0 == "roadmap" ==> i == rk;
    assert Get(full, "questions", VList([])) == VList(row.questions);
    LoadRestoresState(later, sessionId, full.entries, loads);
    var qk := KeyIndex(full.entries, "questions");
    assert full.entries[qk] == ("questions", VList(row.questions));
  }

  // ----- start_new_session -----

  /** The keys `start_new_session` removes. */
  const StartKeys: seq<string> := [
    "questions", "company_info", "selected_sf_account", "current_session_id",
    "company_summary_data", "roadmap", "roadmap_df", "competitive_strategy",
    "outreach_content", "people_research", "expert_context", "show_export_modal",
    "_last_save_hash", "_last_auto_save_time", "_show_save_indicator", "generated_mermaid",
    "architecture_type", "current_architecture_nodes", "future_architecture_nodes",
    "selected_node_id", "node_colors", "node_sizes", "node_positions"]

  /** What `start_new_session` does: the store afterwards, the row a save wrote, whether
      the "saved" message is shown, and whether it returns `True`. */
  datatype Starting = Starting(state: map<string, Value>, row: Option<SavedSession>, reported: bool, ok: bool)

  /** `company_info.get('website')` raises unless `company_info` is a dictionary; a truthy
      website or truthy questions make the session worth saving; the save's own `False`
      is not looked at; then the listed keys are removed. */
  function Start(m: map<string, Value>, newId: string, timestamp: string, show: Value -> string,
                 loads: string -> Option<Value>): Starting
  {
    var info := GetOr(m, "company_info", VDict([]));
    if !info.VDict? then Starting(m, None, false, false)
    else
      var worth := Truthy(Get(info, "website", VNone)) || Truthy(GetOr(m, "questions", VNone));
      var saving := if worth then Save(m, newId, timestamp, show, loads) else Saving(m, None);
      Starting(Without(saving.state, Members(StartKeys)), saving.row, worth, true)
  }

  /** Saves a session worth saving, then removes the listed keys. The closing `st.rerun()`
      hands control back to the page, which is not part of this model. */
  method StartNewSession(s: Session, newId: string, timestamp: string, show: Value -> string,
                         loads: string -> Option<Value>)
    returns (started: bool, row: Option<SavedSession>, reported: bool)
    modifies s
    ensures Start(old(s.state), newId, timestamp, show, loads) == Starting(s.state, row, reported, started)
  {
    var info := GetOr(s.state, "company_info", VDict([]));
    if !info.VDict? {
      return false, None, false;
    }
    row, reported := None, false;
    if Truthy(Get(info, "website", VNone)) || Truthy(GetOr(s.state, "questions", VNone)) {
      var saved;
      saved, row := SaveCurrentSession(s, newId, timestamp, show, loads);
      reported := true;
    }
    DeleteKeys(s, StartKeys);
    started := true;
  }

  /** A fresh start holds none of the listed keys and keeps every other key and its value;
      a `company_info` that is not a dictionary leaves the store as it was. */
  lemma StartKeepsOthers(m: map<string, Value>, newId: string, timestamp: string, show: Value -> string,
                         loads: string -> Option<Value>)
    ensures var r := Start(m, newId, timestamp, show, loads);
      r.ok <==> GetOr(m, "company_info", VDict([])).VDict?
    ensures var r := Start(m, newId, timestamp, show, loads);
      !r.ok ==> r.state == m && r.row.None?
    ensures var r := Start(m, newId, timestamp, show, loads);
      r.ok ==> r.state == Without(m, Members(StartKeys))
  {
    var info := GetOr(m, "company_info", VDict([]));
    if info.VDict? && (Truthy(Get(info, "website", VNone)) || Truthy(GetOr(m, "questions", VNone))) {
      var saved := Save(m, newId, timestamp, show, loads).state;
      assert saved == m || saved == m["current_session_id" := VStr(newId)] by {
        SaveKeepsSessionId(m, newId, timestamp, show, loads);
      }
      StartKeysListed();
      WithoutUpdate(m, "current_session_id", VStr(newId), Members(StartKeys));
    }
  }

  /** The session id and the questions are among the keys a fresh start removes. */
  lemma StartKeysListed()
    ensures "current_session_id" in Members(StartKeys) && "questions" in Members(StartKeys)
  {
    assert StartKeys[0] == "questions" && StartKeys[3] == "current_session_id";
  }

  /** Setting a key and then deleting it leaves what deleting alone leaves. */
  lemma WithoutUpdate(m: map<string, Value>, k: string, v: Value, keys: set<string>)
    requires k in keys
    ensures Without(m[k := v], keys) == Without(m, keys)
  {
  }

  /** A session with a website in its company is saved before the fresh start: the row
      written is the one a save writes. */
  lemma StartSavesCompany(m: map<string, Value>, newId: string, timestamp: string, show: Value -> string,
                          loads: string -> Option<Value>)
    requires GetOr(m, "company_info", VDict([])).VDict?
    requires Truthy(Get(GetOr(m, "company_info", VDict([])), "website", VNone))
    ensures Start(m, newId, timestamp, show, loads).row == Save(m, newId, timestamp, show, loads).row
    ensures Start(m, newId, timestamp, show, loads).row.Some? ==>
      Start(m, newId, timestamp, show, loads).row.value.questions == AsList(GetOr(m, "questions", VList([])))
  {
    var info := GetOr(m, "company_info", VDict([]));
    var ci := CompanyInfo(info, loads);
    assert ci == info;
  }

  /** Questions without a company are not saved, yet the "saved" message is shown and the
      questions are removed. */
  lemma StartDropsQuestionsWithoutCompany(m: map<string, Value>, newId: string, timestamp: string,
                                          show: Value -> string, loads: string -> Option<Value>)
    requires GetOr(m, "company_info", VDict([])) == VDict([])
    requires Truthy(GetOr(m, "questions", VNone))
    ensures var r := Start(m, newId, timestamp, show, loads);
      r.ok && r.reported && r.row.None? && "questions" !in r.state
  {
    StartKeysListed();
    assert CompanyInfo(VDict([]), loads) == VDict([]);
  }
}
