/** Two operations of `modules/sales_functions.py`: what `generate_outreach_content` keeps
    from the generated outreach (an email and a LinkedIn message), and
    `get_session_summary`. The generated outreach is a parameter. */
module SalesReport {
  import opened Text
  import opened Values
  import opened SessionStore
  import opened Questions
  import Autofill
  import Sales
  import StateManagement

  // ----- The stored outreach email -----

  const StringSubject := "Follow-up: Snowflake Discussion"
  const FallbackSubject := "Follow-up: Snowflake Opportunity Discussion"
  const FallbackOpening := "Hi there,\n\nThank you for our conversation about "
  const FallbackClosing := ". Based on our discussion, I believe Snowflake could help address some of the challenges we talked about.\n\nI'd love to schedule a follow-up call to explore this further.\n\nBest regards"
  const NoNotesWarning := "Please answer some discovery questions first to generate personalized outreach."

  const LinkedInOpening := "Hi! I'd love to connect and discuss how Snowflake could help "
  const LinkedInClosing := " with your data initiatives. Would you be open to a brief call?"

  /** The item picked out of generated outreach: the value under `firstKey` of a
      dictionary, else the value under its first key; the first item of a non-empty list;
      the outreach itself otherwise (`None` for an empty dictionary). */
  function Picked(outreach: Value, firstKey: string): (r: Value)
    ensures outreach.VDict? && HasKey(outreach.entries, firstKey) ==>
      r == Find(outreach.entries, firstKey).value
    ensures outreach.VDict? && !HasKey(outreach.entries, firstKey) ==>
      r == (if outreach.entries != [] then outreach.entries[0].1 else VNone)
    ensures outreach.VList? && outreach.items != [] ==> r == outreach.items[0]
  {
    if outreach.VDict? then
      match Find(outreach.entries, firstKey)
      case Some(e) => e
      case None => if outreach.entries != [] then outreach.entries[0].1 else VNone
    else if outreach.VList? && outreach.items != [] then outreach.items[0]
    else outreach
  }

  /** The email picked out of the generated emails, `email_1` first. */
  function EmailCandidate(emails: Value): Value {
    Picked(emails, "email_1")
  }

  /** An email the page can show: a dictionary with a subject and a body. */
  predicate ValidEmail(e: Value) {
    e.VDict? && HasKey(e.entries, "subject") && HasKey(e.entries, "body")
  }

  /** The company named in a fallback message: its website, or "your company". */
  function Website(companyInfo: Value, show: Value -> string): string {
    PyStr(Get(companyInfo, "website", VStr("your company")), show)
  }

  /** The fallback body, naming the company. */
  function FallbackBody(companyInfo: Value, show: Value -> string): string {
    FallbackOpening + Website(companyInfo, show) + FallbackClosing
  }

  /** `{'subject': subject, 'body': body}` */
  function Email(subject: string, body: Value): (e: Value)
    ensures ValidEmail(e)
    ensures Find(e.entries, "subject") == Some(VStr(subject)) && Find(e.entries, "body") == Some(body)
  {
    var e := [("subject", VStr(subject)), ("body", body)];
    KeyIndexAt(e, "subject", 0);
    assert "body" != "subject" by { assert "body"[0] != "subject"[0]; }
    KeyIndexAt(e, "body", 1);
    VDict(e)
  }

  /** The email kept in `st.session_state.email`. */
  function StoredEmail(emails: Value, companyInfo: Value, show: Value -> string): (e: Value)
    ensures ValidEmail(e)
  {
    var candidate := EmailCandidate(emails);
    if ValidEmail(candidate) then candidate
    else if candidate.VStr? then Email(StringSubject, candidate)
    else Email(FallbackSubject, VStr(FallbackBody(companyInfo, show)))
  }

  /** The kept email is the picked one when that is already a proper email; a string is
      kept as the body of an email with the plain follow-up subject; anything else gives
      the fallback email, whose body names the company. `email_1` is preferred to every
      other key. */
  lemma StoredEmailSpec(emails: Value, companyInfo: Value, show: Value -> string)
    ensures var candidate, e := EmailCandidate(emails), StoredEmail(emails, companyInfo, show);
      (ValidEmail(candidate) ==> e == candidate)
      && (candidate.VStr? ==> Find(e.entries, "subject") == Some(VStr(StringSubject))
                              && Find(e.entries, "body") == Some(candidate))
      && (!ValidEmail(candidate) && !candidate.VStr? ==>
            Find(e.entries, "subject") == Some(VStr(FallbackSubject))
            && Contains(AsStr(Find(e.entries, "body").value), Website(companyInfo, show)))
    ensures emails.VDict? && HasKey(emails.entries, "email_1") ==>
      EmailCandidate(emails) == Find(emails.entries, "email_1").value
  {
    var candidate := EmailCandidate(emails);
    if !ValidEmail(candidate) && !candidate.VStr? {
      var site := Website(companyInfo, show);
      var body := FallbackBody(companyInfo, show);
      assert body[|FallbackOpening|..|FallbackOpening| + |site|] == site;
      assert OccursAt(body, site, |FallbackOpening|);
    }
  }

  /** The first string value of a dictionary, in key order. */
  function FirstString(entries: seq<(string, Value)>): (r: Option<string>)
    ensures r.Some? ==> exists i :: 0 <= i < |entries| && entries[i].1 == VStr(r.value)
    ensures r.None? <==> forall i :: 0 <= i < |entries| ==> !entries[i].1.VStr?
  {
    if entries == [] then None
    else if entries[0].1.VStr? then Some(entries[0].1.s)
    else
      var r := FirstString(entries[1..]);
      assert r.Some? ==> entries[1..][0..] == entries[1..];
      r
  }

  /** The LinkedIn message kept in `st.session_state.linkedin`, `None` when the key is left
      as it was. A picked dictionary gives its `body`; the branch that would join an
      `opening` to the body tests for a `body` too, so it is only reached when there is no
      `body` and never applies; without a body the first string value is taken. */
  function StoredLinkedIn(messages: Value, companyInfo: Value, show: Value -> string): (r: Option<Value>)
  {
    var d := Picked(messages, "message_1");
    if d.VDict? then
      if HasKey(d.entries, "body") then Some(Find(d.entries, "body").value)
      else if HasKey(d.entries, "opening") && HasKey(d.entries, "body") then
        Some(VStr(PyStr(Get(d, "opening", VNone), show) + " " + PyStr(Get(d, "body", VNone), show)))
      else match FirstString(d.entries)
        case Some(t) => Some(VStr(t))
        case None => None
    else if d.VStr? then Some(d)
    else Some(VStr(LinkedInOpening + Website(companyInfo, show) + LinkedInClosing))
  }

  /** The kept LinkedIn message is the picked dictionary's body when it has one (an
      `opening` is never used), else its first string value, and the key is left alone
      when there is none; a picked string is kept as it is; anything else gives the
      fallback message, which names the company. */
  lemma StoredLinkedInSpec(messages: Value, companyInfo: Value, show: Value -> string)
    ensures var d, r := Picked(messages, "message_1"), StoredLinkedIn(messages, companyInfo, show);
      (d.VDict? && HasKey(d.entries, "body") ==> r == Find(d.entries, "body"))
      && (d.VDict? && !HasKey(d.entries, "body") ==>
            (r.None? <==> forall i :: 0 <= i < |d.entries| ==> !d.entries[i].1.VStr?)
            && (r.Some? ==> exists i :: 0 <= i < |d.entries| && d.entries[i].1 == r.value))
      && (d.VStr? ==> r == Some(d))
      && (!d.VDict? && !d.VStr? ==> r.Some? && Contains(AsStr(r.value), Website(companyInfo, show)))
  {
    var d := Picked(messages, "message_1");
    if !d.VDict? && !d.VStr? {
      var site := Website(companyInfo, show);
      var text := LinkedInOpening + site + LinkedInClosing;
      assert text[|LinkedInOpening|..|LinkedInOpening| + |site|] == site;
      assert OccursAt(text, site, |LinkedInOpening|);
    }
  }

  /** The store after the email part: for "email" or "all", truthy generated emails store
      the kept email. */
  function AfterEmail(m: map<string, Value>, contentType: string, emails: Value, show: Value -> string)
    : (r: map<string, Value>)
    requires "company_info" in m
  {
    if (contentType == "email" || contentType == "all") && Truthy(emails)
    then m["email" := StoredEmail(emails, m["company_info"], show)]
    else m
  }

  /** The store after the LinkedIn part: for "linkedin" or "all", truthy generated messages
      store the kept message when there is one. */
  function AfterLinkedIn(m: map<string, Value>, contentType: string, messages: Value, show: Value -> string)
    : (r: map<string, Value>)
    requires "company_info" in m
  {
    if (contentType == "linkedin" || contentType == "all") && Truthy(messages)
    then match StoredLinkedIn(messages, m["company_info"], show)
      case Some(t) => m["linkedin" := t]
      case None => m
    else m
  }

  /** The content type decides what may change: "email" touches only the email, "linkedin"
      only the LinkedIn message, "all" at most both, and any other type nothing. */
  lemma ContentTypeSelects(m: map<string, Value>, contentType: string, emails: Value, messages: Value,
                           show: Value -> string)
    requires "company_info" in m
    ensures var r := AfterLinkedIn(AfterEmail(m, contentType, emails, show), contentType, messages, show);
      (forall k :: k != "email" && k != "linkedin" ==> (k in r <==> k in m) && (k in m ==> r[k] == m[k]))
      && (contentType == "email" ==> r == AfterEmail(m, contentType, emails, show))
      && (contentType == "linkedin" ==> r == AfterLinkedIn(m, contentType, messages, show))
      && (contentType != "email" && contentType != "linkedin" && contentType != "all" ==> r == m)
  {
  }

  /** `generate_outreach_content(content_type)`: blank discovery notes give a warning and
      change nothing; otherwise the email part and then the LinkedIn part run. */
  method GenerateOutreachContent(s: Session, contentType: string, emails: Value, messages: Value,
                                 show: Value -> string)
    returns (warned: bool)
    requires "company_info" in s.state && s.state["company_info"].VDict?
    requires Sales.NotesInput(GetOr(s.state, "questions", VDict([])))
    modifies s
    ensures warned <==> IsBlank(Sales.DiscoveryNotes(GetOr(old(s.state), "questions", VDict([])), show))
    ensures warned ==> s.state == old(s.state)
    ensures !warned ==>
      s.state == AfterLinkedIn(AfterEmail(old(s.state), contentType, emails, show), contentType, messages, show)
  {
    var notes := Sales.PrepareDiscoveryNotes(GetOr(s.state, "questions", VDict([])), show);
    StripEmptyIffBlank(notes);
    if Strip(notes) == "" {
      return true;
    }
    warned := false;
    StoreEmail(s, contentType, emails, show);
    StoreLinkedIn(s, contentType, messages, show);
  }

  /** The email part of `generate_outreach_content`. */
  method StoreEmail(s: Session, contentType: string, emails: Value, show: Value -> string)
    requires "company_info" in s.state
    modifies s
    ensures s.state == AfterEmail(old(s.state), contentType, emails, show)
  {
    if (contentType == "email" || contentType == "all") && Truthy(emails) {
      s.state := s.state["email" := StoredEmail(emails, s.state["company_info"], show)];
    }
  }

  /** The LinkedIn part of `generate_outreach_content`. */
  method StoreLinkedIn(s: Session, contentType: string, messages: Value, show: Value -> string)
    requires "company_info" in s.state
    modifies s
    ensures s.state == AfterLinkedIn(old(s.state), contentType, messages, show)
  {
    if (contentType == "linkedin" || contentType == "all") && Truthy(messages) {
      var kept := StoredLinkedIn(messages, s.state["company_info"], show);
      if kept.Some? {
        s.state := s.state["linkedin" := kept.value];
      }
    }
  }

  // ----- get_session_summary -----

  /** What `get_session_summary` reports. The completion rate is a percentage, before
      rounding. */
  datatype SessionSummary = SessionSummary(
    company: Value, totalQuestions: nat, answeredQuestions: nat, completionRate: real,
    hasNotes: bool, hasRoadmap: bool, hasStrategy: bool, hasPeople: bool, hasOutreach: bool)

  /** `sum(len(q_list) for q_list in questions.values())` over `entries[..n]`. */
  function QuestionTotal(entries: seq<(string, Value)>, n: nat): nat
    requires n <= |entries|
  {
    if n == 0 then 0 else QuestionTotal(entries, n - 1) + |AsList(entries[n - 1].1)|
  }

  /** The answered questions of the category lists `entries[..n]`. */
  function AnsweredTotal(entries: seq<(string, Value)>, n: nat): nat
    requires n <= |entries|
  {
    if n == 0 then 0 else AnsweredTotal(entries, n - 1) + |Sales.Answers(AsList(entries[n - 1].1))|
  }

  /** There are never more answered questions than questions. */
  lemma {:induction false} AnsweredAtMostTotal(entries: seq<(string, Value)>, n: nat)
    requires n <= |entries|
    ensures AnsweredTotal(entries, n) <= QuestionTotal(entries, n)
  {
    if n > 0 {
      AnsweredAtMostTotal(entries, n - 1);
    }
  }

  /** Every question of the list `v` is answered. */
  predicate FullyAnswered(v: Value) {
    |Sales.Answers(AsList(v))| == |AsList(v)|
  }

  /** Every category is answered in full exactly when the answered count reaches the
      question count. */
  lemma AllAnsweredIff(entries: seq<(string, Value)>, n: nat)
    requires n <= |entries|
    ensures AnsweredTotal(entries, n) == QuestionTotal(entries, n)
        <==> forall c :: 0 <= c < n ==> FullyAnswered(entries[c].1)
  {
    if AnsweredTotal(entries, n) == QuestionTotal(entries, n) {
      FullWhenCountsMeet(entries, n);
    }
    if forall c :: 0 <= c < n ==> FullyAnswered(entries[c].1) {
      CountsMeetWhenFull(entries, n);
    }
  }

  lemma {:induction false} FullWhenCountsMeet(entries: seq<(string, Value)>, n: nat)
    requires n <= |entries| && AnsweredTotal(entries, n) == QuestionTotal(entries, n)
    ensures forall c :: 0 <= c < n ==> FullyAnswered(entries[c].1)
  {
    if n > 0 {
      var last := entries[n - 1].1;
      assert AnsweredTotal(entries, n - 1) == QuestionTotal(entries, n - 1) && FullyAnswered(last) by {
        AnsweredAtMostTotal(entries, n - 1);
        assert |Sales.Answers(AsList(last))| <= |AsList(last)|;
      }
      FullWhenCountsMeet(entries, n - 1);
      assert forall c :: 0 <= c < n ==> FullyAnswered(entries[c].1) by {
        forall c | 0 <= c < n
          ensures FullyAnswered(entries[c].1)
        {
          if c == n - 1 {
            assert entries[c].1 == last;
          }
        }
      }
    }
  }

  lemma {:induction false} CountsMeetWhenFull(entries: seq<(string, Value)>, n: nat)
    requires n <= |entries| && forall c :: 0 <= c < n ==> FullyAnswered(entries[c].1)
    ensures AnsweredTotal(entries, n) == QuestionTotal(entries, n)
  {
    if n > 0 {
      CountsMeetWhenFull(entries, n - 1);
      assert FullyAnswered(entries[n - 1].1);
    }
  }

  /** `answered / total * 100`, or 0 when there are no questions. */
  function CompletionRate(answered: nat, total: nat): real {
    if total > 0 then (answered as real) / (total as real) * 100.0 else 0.0
  }

  lemma CompletionRateBounds(answered: nat, total: nat)
    requires answered <= total
    ensures 0.0 <= CompletionRate(answered, total) <= 100.0
    ensures CompletionRate(answered, total) == 100.0 <==> total > 0 && answered == total
    ensures total == 0 ==> CompletionRate(answered, total) == 0.0
  {
    if total > 0 {
      var a, t := answered as real, total as real;
      var r := a / t;
      assert r * t == a;
      assert 0.0 <= r;
      assert (r - 1.0) * t == a - t;
      assert r <= 1.0;
      if answered == total {
        assert r == 1.0;
      }
      if r == 1.0 {
        assert a == t;
      }
    }
  }

  /** What `get_session_summary` reads without raising: a company record and a question
      dictionary of question lists when present, string notes and strategy, and a roadmap
      frame (rows or columns) whose row count is defined. */
  predicate SummaryReadable(m: map<string, Value>) {
    GetOr(m, "company_info", VDict([])).VDict?
    && (GetOr(m, "roadmap_df", VList([])).VList? || GetOr(m, "roadmap_df", VList([])).VDict?)
    && StateManagement.FrameLength(GetOr(m, "roadmap_df", VList([]))).Some?
    && GetOr(m, "questions", VDict([])).VDict?
    && (forall c :: 0 <= c < |GetOr(m, "questions", VDict([])).entries| ==>
          GetOr(m, "questions", VDict([])).entries[c].1.VList?
          && Autofill.AllFillable(GetOr(m, "questions", VDict([])).entries[c].1.items))
    && GetOr(m, "notes_content", VStr("")).VStr?
    && GetOr(m, "value_strategy_content", VStr("")).VStr?
  }

  /** `get_session_summary()`. The roadmap frame is not `empty` when it has a row: a list
      of rows is non-empty, or the first of its columns has a cell. */
  function Summary(m: map<string, Value>): (r: SessionSummary)
    requires SummaryReadable(m)
    ensures r.answeredQuestions <= r.totalQuestions
    ensures 0.0 <= r.completionRate <= 100.0
    ensures r.totalQuestions == 0 ==> r.completionRate == 0.0
    ensures var df := GetOr(m, "roadmap_df", VList([]));
      df.VList? ==> (r.hasRoadmap <==> df.items != [])
    ensures var df := GetOr(m, "roadmap_df", VList([]));
      df.VDict? ==> (r.hasRoadmap <==> df.entries != [] && Length(df.entries[0].1) != Some(0))
  {
    var entries := GetOr(m, "questions", VDict([])).entries;
    var total := QuestionTotal(entries, |entries|);
    var answered := AnsweredTotal(entries, |entries|);
    AnsweredAtMostTotal(entries, |entries|);
    CompletionRateBounds(answered, total);
    SessionSummary(
      Get(GetOr(m, "company_info", VDict([])), "website", VStr("No company selected")),
      total, answered, CompletionRate(answered, total),
      !IsBlank(AsStr(GetOr(m, "notes_content", VStr("")))),
      StateManagement.FrameLength(GetOr(m, "roadmap_df", VList([]))).value > 0,
      !IsBlank(AsStr(GetOr(m, "value_strategy_content", VStr("")))),
      Truthy(GetOr(m, "people_research", VList([]))),
      Truthy(GetOr(m, "outreach_emails", VDict([]))))
  }

  /** The rate is 100 exactly when every category is fully answered and there is at least
      one question. */
  lemma SummaryComplete(m: map<string, Value>)
    requires SummaryReadable(m)
    ensures var entries := GetOr(m, "questions", VDict([])).entries;
      Summary(m).completionRate == 100.0
      <==> Summary(m).totalQuestions > 0
           && forall c :: 0 <= c < |entries| ==> FullyAnswered(entries[c].1)
  {
    var entries := GetOr(m, "questions", VDict([])).entries;
    AnsweredAtMostTotal(entries, |entries|);
    AllAnsweredIff(entries, |entries|);
    CompletionRateBounds(AnsweredTotal(entries, |entries|), QuestionTotal(entries, |entries|));
  }

  /** The summary's roadmap flag and the state manager's `has_roadmap_data` agree on any
      store the summary reads. */
  lemma SummaryRoadmapAgrees(manager: StateManagement.StateManager)
    requires SummaryReadable(manager.session.state)
    ensures Summary(manager.session.state).hasRoadmap == manager.HasRoadmapData()
  {
  }
}
