/** `shared/state_manager.py`: the `StateManager` every page constructs. It keeps no state
    of its own; its methods read and update the shared session store. */
module StateManagement {
  import opened Values
  import opened SessionStore

  /** The defaults `init_session_state` installs, key by key. */
  const SessionDefaults: map<string, Value> := map[
    "questions" := VDict([]),
    "company_info" := VDict([]),
    "company_summary" := VStr(""),
    "notes_content" := VStr(""),
    "value_strategy_content" := VStr(""),
    "competitive_analysis_content" := VStr(""),
    "initial_value_hypothesis" := VStr(""),
    "roadmap_df" := VList([]),
    "recommended_initiatives" := VList([]),
    "session_loaded" := VBool(false),
    "selected_session_id" := VStr("new"),
    "selected_model" := VStr(DefaultModel),
    "research_stage" := VInt(0),
    "outreach_emails" := VDict([]),
    "linkedin_messages" := VDict([]),
    "messages" := VList([]),
    "people_research" := VList([]),
    "expert_context" := VDict([]),
    "expert_search_value" := VStr(""),
    "token_error_flag" := VBool(false),
    "show_briefing" := VBool(false),
    "data_source" := VStr("Manual Entry")]

  const DefaultModel: string := "claude-3-5-sonnet"

  /** The store after installing every default whose key is missing. */
  function WithDefaults(m: map<string, Value>, defaults: map<string, Value>): (r: map<string, Value>)
    ensures r.Keys == m.Keys + defaults.Keys
  {
    map k | k in m.Keys + defaults.Keys :: if k in m then m[k] else defaults[k]
  }

  /** Installing defaults keeps every value already present, fills in exactly the missing
      default keys, and doing it twice is the same as doing it once. */
  lemma WithDefaultsSpec(m: map<string, Value>, defaults: map<string, Value>)
    ensures forall k :: k in m ==> WithDefaults(m, defaults)[k] == m[k]
    ensures forall k :: k in defaults && k !in m ==> WithDefaults(m, defaults)[k] == defaults[k]
    ensures WithDefaults(WithDefaults(m, defaults), defaults) == WithDefaults(m, defaults)
  {
    var once := WithDefaults(m, defaults);
    var twice := WithDefaults(once, defaults);
    assert twice.Keys == once.Keys;
    forall k | k in twice
      ensures twice[k] == once[k]
    {
    }
  }

  /** The questions of the category lists in `entries[..n]`, one category after another. */
  function AllQuestions(entries: seq<(string, Value)>, n: nat): seq<Value>
    requires n <= |entries|
  {
    if n == 0 then [] else AllQuestions(entries, n - 1) + AsList(entries[n - 1].1)
  }

  /** When every category is a list, the summed lengths count every question once. */
  lemma {:induction false} LengthSumCountsQuestions(entries: seq<(string, Value)>, n: nat)
    requires n <= |entries|
    ensures (forall i :: 0 <= i < n ==> entries[i].1.VList?) ==>
      LengthSum(entries, n) == Some(|AllQuestions(entries, n)|)
  {
    if n > 0 {
      LengthSumCountsQuestions(entries, n - 1);
    }
  }

  /** `len` of the roadmap frame, `None` where `len` raises. A frame is held as its rows (a
      list) or its columns (a dictionary whose first column gives the row count). */
  function FrameLength(v: Value): (r: Option<nat>)
    ensures v.VList? ==> r == Some(|v.items|)
    ensures v == VDict([]) ==> r == Some(0)
  {
    if v.VDict? && v.entries != [] then Length(v.entries[0].1) else Length(v)
  }

  /** What `get_session_summary` reports. */
  datatype Summary = Summary(company: Value, questions: nat, roadmapItems: nat, experts: nat)

  /** `d.get(k, default)` on a value that is a dictionary, or the default otherwise. */
  function Field(d: Value, k: string, default: Value): Value {
    if d.VDict? then Get(d, k, default) else default
  }

  class StateManager {
    const session: Session

    /** `StateManager()`: installs the defaults, then hands over a just-created session id. */
    constructor(s: Session)
      modifies s
      ensures session == s
      ensures s.state == Transitioned(WithDefaults(old(s.state), SessionDefaults))
    {
      session := s;
      new;
      InitSessionState();
      HandleSessionIdTransition();
    }

    /** `init_session_state`: each missing default key is added; nothing present changes. */
    method InitSessionState()
      modifies session
      ensures session.state == WithDefaults(old(session.state), SessionDefaults)
    {
      InstallDefaults(session, SessionDefaults);
    }

    /** `handle_session_id_transition` */
    method HandleSessionIdTransition()
      modifies session
      ensures session.state == Transitioned(old(session.state))
    {
      if "just_created_session_id" in session.state {
        var id := session.state["just_created_session_id"];
        session.state := session.state["selected_session_id" := id];
        session.state := map k | k in session.state && k != "just_created_session_id" :: session.state[k];
      }
    }

    /** `clear_session(preserve_loaded_session_id)`: every key goes, the session id (kept
        or reset to "new"), the model and a truthy current user come back, and the defaults
        are installed again. */
    method ClearSession(preserveLoadedSessionId: bool)
      modifies session
      ensures session.state == WithDefaults(Preserved(old(session.state), preserveLoadedSessionId), SessionDefaults)
    {
      var loaded := if preserveLoadedSessionId then GetOr(session.state, "selected_session_id", VNone)
                    else VStr("new");
      var currentUser := GetOr(session.state, "current_user", VNone);
      var selectedModel := GetOr(session.state, "selected_model", VStr(DefaultModel));
      var keys := session.state.Keys;
      while keys != {}
        invariant keys <= session.state.Keys
        invariant session.state == Without(old(session.state), old(session.state).Keys - keys)
        decreases keys
      {
        var k :| k in keys;
        session.state := map j | j in session.state && j != k :: session.state[j];
        keys := keys - {k};
      }
      session.state := session.state["selected_session_id" := loaded];
      session.state := session.state["selected_model" := selectedModel];
      if Truthy(currentUser) {
        session.state := session.state["current_user" := currentUser];
      }
      InitSessionState();
    }

    /** `get_company_context`: the company dictionary, or an empty one before any company
        was entered. */
    function GetCompanyContext(): (r: Value)
      reads this, session
      ensures "company_info" !in session.state ==> r == VDict([])
      ensures HasCompanyData() <==> Truthy(Field(r, "website", VNone))
    {
      GetOr(session.state, "company_info", VDict([]))
    }

    /** `get_discovery_data`: the six discovery fields under their own names, each with the
        default the application starts from when it is missing. */
    function GetDiscoveryData(): (r: Value)
      reads this, session
      ensures r.VDict? && Keys(r.entries) == ["questions", "roadmap", "strategy", "hypothesis", "people_research", "notes"]
      ensures Find(r.entries, "questions") == Some(GetOr(session.state, "questions", VDict([])))
    {
      VDict([("questions", GetOr(session.state, "questions", VDict([]))),
             ("roadmap", GetOr(session.state, "roadmap_df", VList([]))),
             ("strategy", GetOr(session.state, "value_strategy_content", VStr(""))),
             ("hypothesis", GetOr(session.state, "initial_value_hypothesis", VStr(""))),
             ("people_research", GetOr(session.state, "people_research", VList([]))),
             ("notes", GetOr(session.state, "notes_content", VStr("")))])
    }

    /** `update_expert_context`: the expert findings replace the stored ones, and the
        session summary then counts the experts they list. */
    method UpdateExpertContext(expertData: Value)
      modifies session
      ensures session.state == old(session.state)["expert_context" := expertData]
      ensures GetExpertContext() == expertData
      ensures !expertData.VDict? ==> GetSessionSummary().None?
      ensures GetSessionSummary().Some? ==>
        Some(GetSessionSummary().value.experts) == Length(Get(expertData, "experts", VList([])))
    {
      session.state := session.state["expert_context" := expertData];
    }

    /** `get_expert_context` */
    function GetExpertContext(): (r: Value)
      reads this, session
      ensures "expert_context" in session.state ==> r == session.state["expert_context"]
      ensures "expert_context" !in session.state ==> r == VDict([])
    {
      GetOr(session.state, "expert_context", VDict([]))
    }

    /** `get_current_user`: a stored user is returned untouched; otherwise the user is looked
        up once and stored. `rows` are the rows `SELECT CURRENT_USER()` yields (none when the
        query fails, since the query layer then returns an empty frame). */
    method GetCurrentUser(rows: seq<Value>) returns (r: Value)
      modifies session
      ensures "current_user" in session.state && r == session.state["current_user"]
      ensures "current_user" in old(session.state) ==> session.state == old(session.state)
      ensures "current_user" !in old(session.state) ==>
        session.state == old(session.state)["current_user" := FetchedUser(|old(session.state)|, rows)]
    {
      if "current_user" !in session.state {
        session.state := session.state["current_user" := FetchedUser(|session.state|, rows)];
      }
      r := session.state["current_user"];
    }

    /** `has_company_data` */
    predicate HasCompanyData()
      reads this, session
    {
      CompanyDataIn(session.state)
    }

    /** `has_discovery_data` */
    predicate HasDiscoveryData()
      reads this, session
    {
      DiscoveryDataIn(session.state)
    }

    /** `has_roadmap_data`: the roadmap frame has rows. */
    predicate HasRoadmapData()
      reads this, session
    {
      match FrameLength(GetOr(session.state, "roadmap_df", VList([])))
      case Some(n) => n > 0
      case None => false
    }

    /** `get_session_summary` */
    function GetSessionSummary(): (r: Option<Summary>)
      reads this, session
      ensures r == SummaryOf(session.state)
    {
      SummaryOf(session.state)
    }
  }

  predicate CompanyDataIn(m: map<string, Value>) {
    Truthy(Field(GetOr(m, "company_info", VDict([])), "website", VNone))
  }

  predicate DiscoveryDataIn(m: map<string, Value>) {
    Truthy(GetOr(m, "questions", VDict([])))
  }

  /** Where `get_session_summary` raises: `.get` on a company record or an expert context
      that is not a dictionary, `.values()` on questions that are not a dictionary, or `len`
      of a category, of the roadmap frame or of the expert list when it has none. */
  predicate SummaryRaises(m: map<string, Value>) {
    var company := GetOr(m, "company_info", VDict([]));
    var questions := GetOr(m, "questions", VDict([]));
    var context := GetOr(m, "expert_context", VDict([]));
    !company.VDict? || !questions.VDict? || !context.VDict?
    || (exists i :: 0 <= i < |questions.entries| && Length(questions.entries[i].1).None?)
    || FrameLength(GetOr(m, "roadmap_df", VList([]))).None?
    || Length(Get(context, "experts", VList([]))).None?
  }

  /** `get_session_summary` on a store, `None` where it raises. The company is the stored
      website or "None"; for category lists the question count is the number of questions
      in all of them; the expert count is the length of the listed experts. */
  function SummaryOf(m: map<string, Value>): (r: Option<Summary>)
    ensures r.None? <==> SummaryRaises(m)
    ensures r.Some? ==> r.value.company == Get(GetOr(m, "company_info", VDict([])), "website", VStr("None"))
    ensures r.Some? ==> var qs := GetOr(m, "questions", VDict([])).entries;
      (forall i :: 0 <= i < |qs| ==> qs[i].1.VList?) ==> r.value.questions == |AllQuestions(qs, |qs|)|
    ensures r.Some? ==> Some(r.value.roadmapItems) == FrameLength(GetOr(m, "roadmap_df", VList([])))
    ensures r.Some? ==>
      Some(r.value.experts) == Length(Get(GetOr(m, "expert_context", VDict([])), "experts", VList([])))
  {
    var company := GetOr(m, "company_info", VDict([]));
    var questions := GetOr(m, "questions", VDict([]));
    var context := GetOr(m, "expert_context", VDict([]));
    if !company.VDict? || !questions.VDict? || !context.VDict? then None
    else
      LengthSumCountsQuestions(questions.entries, |questions.entries|);
      match (LengthSum(questions.entries, |questions.entries|),
             FrameLength(GetOr(m, "roadmap_df", VList([]))),
             Length(Get(context, "experts", VList([]))))
      case (Some(q), Some(rows), Some(e)) => Some(Summary(Get(company, "website", VStr("None")), q, rows, e))
      case _ => None
  }

  /** The store after `handle_session_id_transition`. */
  function Transitioned(m: map<string, Value>): (r: map<string, Value>)
    ensures "just_created_session_id" !in r
    ensures "just_created_session_id" in m ==>
      r.Keys == (m.Keys + {"selected_session_id"}) - {"just_created_session_id"}
      && r["selected_session_id"] == m["just_created_session_id"]
      && forall k :: k in r && k != "selected_session_id" ==> r[k] == m[k]
    ensures "just_created_session_id" !in m ==> r == m
  {
    if "just_created_session_id" in m then
      var t := m["selected_session_id" := m["just_created_session_id"]];
      map k | k in t && k != "just_created_session_id" :: t[k]
    else m
  }

  /** What `clear_session` puts back before installing the defaults. */
  function Preserved(m: map<string, Value>, preserve: bool): (r: map<string, Value>)
    ensures r.Keys <= {"selected_session_id", "selected_model", "current_user"}
  {
    var loaded := if preserve then GetOr(m, "selected_session_id", VNone) else VStr("new");
    var kept := map["selected_session_id" := loaded,
                    "selected_model" := GetOr(m, "selected_model", VStr(DefaultModel))];
    var user := GetOr(m, "current_user", VNone);
    if Truthy(user) then kept["current_user" := user] else kept
  }

  /** After `clear_session` every default key other than the session id and the model holds
      its default, no key outside the defaults survives but a truthy current user, the
      session id is the old one when asked to preserve it and "new" otherwise, and the model
      is kept. */
  lemma ClearSessionSpec(m: map<string, Value>, preserve: bool)
    ensures var r := WithDefaults(Preserved(m, preserve), SessionDefaults);
      (forall k :: k in SessionDefaults && k != "selected_session_id" && k != "selected_model"
                   ==> r[k] == SessionDefaults[k])
      && (forall k :: k in r ==> k in SessionDefaults || k == "current_user")
      && r["selected_session_id"] == (if preserve then GetOr(m, "selected_session_id", VNone) else VStr("new"))
      && r["selected_model"] == GetOr(m, "selected_model", VStr(DefaultModel))
      && ("current_user" in r <==> Truthy(GetOr(m, "current_user", VNone)))
  {
    ClearedWith(m, preserve, SessionDefaults);
  }

  lemma ClearedWith(m: map<string, Value>, preserve: bool, defaults: map<string, Value>)
    requires "current_user" !in defaults && "selected_session_id" in defaults && "selected_model" in defaults
    ensures var r := WithDefaults(Preserved(m, preserve), defaults);
      (forall k :: k in defaults && k != "selected_session_id" && k != "selected_model"
                   ==> r[k] == defaults[k])
      && (forall k :: k in r ==> k in defaults || k == "current_user")
      && r["selected_session_id"] == (if preserve then GetOr(m, "selected_session_id", VNone) else VStr("new"))
      && r["selected_model"] == GetOr(m, "selected_model", VStr(DefaultModel))
      && ("current_user" in r <==> Truthy(GetOr(m, "current_user", VNone)))
  {
    WithDefaultsSpec(Preserved(m, preserve), defaults);
  }

  /** A cleared session has no company and no discovery questions, and its summary names no
      company and counts nothing. */
  lemma ClearedSessionIsEmpty(m: map<string, Value>, preserve: bool)
    ensures var r := WithDefaults(Preserved(m, preserve), SessionDefaults);
      !CompanyDataIn(r) && !DiscoveryDataIn(r) && SummaryOf(r) == Some(Summary(VStr("None"), 0, 0, 0))
  {
    ClearedDefaults(m, preserve, SessionDefaults);
  }

  lemma ClearedDefaults(m: map<string, Value>, preserve: bool, defaults: map<string, Value>)
    requires "company_info" in defaults && defaults["company_info"] == VDict([])
    requires "questions" in defaults && defaults["questions"] == VDict([])
    requires "roadmap_df" in defaults && defaults["roadmap_df"] == VList([])
    requires "expert_context" in defaults && defaults["expert_context"] == VDict([])
    ensures var r := WithDefaults(Preserved(m, preserve), defaults);
      !CompanyDataIn(r) && !DiscoveryDataIn(r) && SummaryOf(r) == Some(Summary(VStr("None"), 0, 0, 0))
  {
    WithDefaultsSpec(Preserved(m, preserve), defaults);
  }

  /** The user `get_current_user` stores: the `USER` column of the first row, or the generic
      fallback while the store is still empty (no query is made then), when the query yields
      no rows, or when the first row has no `USER` column (the lookup error is caught). */
  function FetchedUser(storeSize: nat, rows: seq<Value>): (r: Value)
    ensures r != VStr(FallbackUser) && storeSize > 0 ==>
      rows != [] && Lookup(rows[0], "USER") == Some(r)
  {
    if storeSize == 0 || rows == [] then VStr(FallbackUser)
    else match Lookup(rows[0], "USER")
      case Some(u) => u
      case None => VStr(FallbackUser)
  }

  const FallbackUser: string := "Snowflake User"

  /** Installing `defaults` key by key, skipping keys already present. */
  method InstallDefaults(s: Session, defaults: map<string, Value>)
    modifies s
    ensures s.state == WithDefaults(old(s.state), defaults)
  {
    var pending := defaults.Keys;
    while pending != {}
      invariant pending <= defaults.Keys
      invariant s.state.Keys == old(s.state).Keys + (defaults.Keys - pending)
      invariant forall k :: k in old(s.state) ==> s.state[k] == old(s.state)[k]
      invariant forall k :: k in s.state && k !in old(s.state) ==> s.state[k] == defaults[k]
      decreases pending
    {
      var k :| k in pending;
      if k !in s.state {
        s.state := s.state[k := defaults[k]];
      }
      pending := pending - {k};
    }
  }
}
