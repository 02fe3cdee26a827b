/** `modules/session_management_v2.py`: the normalised session tables. A save issues one
    merge for the session and then numbered rows for its questions, answers, content and
    contacts; a load reads those tables back into the session store. Every statement sent
    to the database is recorded as a `Write`; what a query returns is a parameter. */
module SessionManagementV2 {
  import opened Text
  import opened Values
  import opened SessionStore
  import opened Questions
  import Autofill
  import Sales
  import SessionManagement

  // ----- clear_session_data -----

  /** The keys `clear_session_data` removes. */
  const ClearKeys: seq<string> := [
    "questions", "company_info", "selected_sf_account", "current_session_id",
    "company_summary_data", "roadmap", "roadmap_df", "competitive_strategy",
    "business_case", "initial_value_hypothesis", "outreach_emails",
    "linkedin_messages", "people_research", "notes_content",
    "recommended_initiatives", "competitor", "contact_name", "contact_title",
    "outreach_content", "expert_context"]

  /** Deletes every listed key that is present and reports success. */
  method ClearSessionData(s: Session) returns (cleared: bool)
    modifies s
    ensures cleared
    ensures s.state == Without(old(s.state), Members(ClearKeys))
    ensures forall i :: 0 <= i < |ClearKeys| ==> ClearKeys[i] !in s.state
  {
    DeleteKeys(s, ClearKeys);
    cleared := true;
  }

  // ----- Session names -----

  /** `generate_session_name`, kept for compatibility: the same company part as the first
      version, followed by the date. */
  function CompatSessionName(info: Value, date: string, loads: string -> Option<Value>, show: Value -> string)
    : (r: Option<string>)
    ensures var part := SessionManagement.CompanyPart(SessionManagement.CompanyInfo(info, loads), show);
      (r.Some? <==> part.Some?) && (r.Some? ==> StartsWith(r.value, part.value))
    ensures r.Some? ==> |r.value| >= |date| && r.value[|r.value| - |date|..] == date
  {
    match SessionManagement.CompanyPart(SessionManagement.CompanyInfo(info, loads), show)
    case None => None
    case Some(part) =>
      var name := part + " - " + date;
      assert name[..|part|] == part;
      Some(name)
  }

  /** The `company_name` a save writes: `name or account_name`, replaced by the website's
      stem when that is falsy and the website truthy. `None` stands for the exception of a
      truthy website that is not a string. */
  function SaveCompanyName(info: Value): (r: Option<Value>)
    requires info.VDict?
    ensures Truthy(Get(info, "name", VNone)) ==> r == Some(Get(info, "name", VNone))
    ensures !Truthy(Get(info, "name", VNone)) && Truthy(Get(info, "account_name", VNone)) ==>
      r == Some(Get(info, "account_name", VNone))
    ensures r.None? <==> (!Truthy(Get(info, "name", VNone)) && !Truthy(Get(info, "account_name", VNone))
      && Truthy(Get(info, "website", VNone)) && !Get(info, "website", VNone).VStr?)
  {
    var name := Get(info, "name", VNone);
    var chosen := if Truthy(name) then name else Get(info, "account_name", VNone);
    var website := Get(info, "website", VNone);
    if !Truthy(chosen) && Truthy(website) then
      (if website.VStr? then Some(VStr(SessionManagement.WebsiteStem(website.s))) else None)
    else Some(chosen)
  }

  /** `f"{company_name or 'Unknown Company'} - {date}"` */
  function SaveSessionName(companyName: Value, date: string, show: Value -> string): string {
    (if Truthy(companyName) then PyStr(companyName, show) else SessionManagement.UnknownCompany) + " - " + date
  }

  /** The save and the compatible name agree on the company when there is no account name
      and the website's stem is not empty; an account name wins over the website, and an
      empty stem is "Unknown Company" only in the save. */
  lemma SaveNameAgrees(info: Value, date: string, show: Value -> string, loads: string -> Option<Value>)
    requires info.VDict? && !Truthy(Get(info, "account_name", VNone))
    requires Truthy(Get(info, "website", VNone)) && Get(info, "website", VNone).VStr?
    ensures var cn := SaveCompanyName(info);
      cn.Some? && CompatSessionName(info, date, loads, show).Some?
      && (SessionManagement.WebsiteStem(Get(info, "website", VNone).s) != [] || Truthy(Get(info, "name", VNone)) ==>
            CompatSessionName(info, date, loads, show) == Some(SaveSessionName(cn.value, date, show)))
  {
    assert SessionManagement.CompanyInfo(info, loads) == info;
  }

  // ----- The writes of save_current_session -----

  datatype Write =
    | MergeSession(session: string, name: string, userEmail: Value, companyName: Value, website: Value,
                   competitor: Value, contactName: Value, contactTitle: Value)
    | DeleteQuestions(session: string)
    | DeleteAnswers(session: string)
    | InsertQuestion(questionId: string, session: string, category: Value, text: Value,
                     explanation: Value, importance: Value, order: nat)
    | InsertAnswer(answerId: string, questionId: string, session: string, answer: string, confidence: nat)
    | DeleteContent(session: string)
    | InsertContentData(contentId: string, session: string, kind: string, data: Value)
    | InsertContentText(contentId: string, session: string, kind: string, body: string)
    | DeleteContacts(session: string)
    | InsertContact(contactId: string, session: string, contactName: Value, contactTitle: Value, linkedin: Value,
                    background: Value, contactType: Value)
    | DeleteSessionRow(session: string)

  /** The writes issued so far, and whether no exception has been raised. */
  datatype Stage = Stage(writes: seq<Write>, ok: bool)

  /** Running `b` after `a`: nothing runs after an exception. */
  function Then(a: Stage, b: Stage): (r: Stage)
    ensures r.ok <==> a.ok && b.ok
    ensures a.ok ==> r.writes == a.writes + b.writes
    ensures !a.ok ==> r == a
  {
    if !a.ok then a else Stage(a.writes + b.writes, b.ok)
  }

  /** One loop over `steps[..n]`, stopping at the first step that raises. */
  function Rows(steps: seq<Stage>, n: nat): Stage
    requires n <= |steps|
  {
    if n == 0 then Stage([], true) else Then(Rows(steps, n - 1), steps[n - 1])
  }

  /** Once a loop has raised, the later steps change nothing. */
  lemma {:induction false} RowsStuck(steps: seq<Stage>, i: nat, n: nat)
    requires i <= n <= |steps| && !Rows(steps, i).ok
    ensures Rows(steps, n) == Rows(steps, i)
    decreases n
  {
    if n > i {
      RowsStuck(steps, i, n - 1);
    }
  }

  /** `f"{session_id}-q-{i+1}"` */
  function QuestionId(session: string, i: nat): string {
    session + "-q-" + NatToString(i + 1)
  }

  /** `f"{session_id}-a-{i+1}"` */
  function AnswerId(session: string, i: nat): string {
    session + "-a-" + NatToString(i + 1)
  }

  /** Ids built from one prefix and distinct numbers are distinct. */
  lemma NumberedIdsDistinct(prefix: string, i: nat, j: nat)
    requires prefix + NatToString(i + 1) == prefix + NatToString(j + 1)
    ensures i == j
  {
    var a := prefix + NatToString(i + 1);
    assert NatToString(i + 1) == a[|prefix|..];
    assert NatToString(j + 1) == a[|prefix|..];
    NatToStringInjective(i + 1, j + 1);
  }

  /** Question ids (and answer ids) of one session are distinct. */
  lemma QuestionIdsDistinct(session: string, i: nat, j: nat)
    ensures QuestionId(session, i) == QuestionId(session, j) ==> i == j
    ensures AnswerId(session, i) == AnswerId(session, j) ==> i == j
  {
    if QuestionId(session, i) == QuestionId(session, j) {
      NumberedIdsDistinct(session + "-q-", i, j);
    }
    if AnswerId(session, i) == AnswerId(session, j) {
      NumberedIdsDistinct(session + "-a-", i, j);
    }
  }

  /** The writes for the i-th question (0-based): its row, then an answer row when its
      answer is not blank. A question that is not a dictionary raises before its row, and
      an answer that is not a string after it. */
  function QuestionStep(session: string, q: Value, i: nat): (r: Stage)
    ensures r.ok <==> Autofill.Fillable(q)
    ensures q.VDict? ==> (|r.writes| >= 1 && r.writes[0].InsertQuestion?
      && r.writes[0].questionId == QuestionId(session, i) && r.writes[0].order == i + 1)
    ensures |r.writes| == 2 <==> r.ok && Answered(q)
    ensures |r.writes| == 2 ==> (r.writes[1].InsertAnswer? && r.writes[1].answerId == AnswerId(session, i)
      && r.writes[1].questionId == QuestionId(session, i) && !IsBlank(r.writes[1].answer))
    ensures |r.writes| <= 2
  {
    if !q.VDict? then Stage([], false)
    else
      var row := InsertQuestion(QuestionId(session, i), session, Get(q, "category", VStr("Technical")),
        Get(q, "text", VStr("")), Get(q, "explanation", VStr("")), Get(q, "importance", VStr("medium")), i + 1);
      var answer := Get(q, "answer", VStr(""));
      if !answer.VStr? then Stage([row], false)
      else if IsBlank(answer.s) then Stage([row], true)
      else Stage([row, InsertAnswer(AnswerId(session, i), QuestionId(session, i), session, answer.s, 3)], true)
  }

  function QuestionSteps(session: string, qs: seq<Value>): (r: seq<Stage>)
    ensures |r| == |qs|
  {
    seq(|qs|, i requires 0 <= i < |qs| => QuestionStep(session, qs[i], i))
  }

  /** Part 2 of the save: for truthy `questions`, the old question and answer rows are
      deleted and the list is written; a truthy value that is not a list raises in the
      loop. */
  function QuestionsStage(session: string, questions: Value): Stage {
    if !Truthy(questions) then Stage([], true)
    else Then(Stage([DeleteQuestions(session), DeleteAnswers(session)], true),
              if questions.VList? then Rows(QuestionSteps(session, questions.items), |questions.items|)
              else Stage([], false))
  }

  /** The answer rows among `ws`. */
  function AnswerRows(ws: seq<Write>): nat {
    if ws == [] then 0 else AnswerRows(ws[..|ws| - 1]) + (if ws[|ws| - 1].InsertAnswer? then 1 else 0)
  }

  /** The question ids of the question rows among `ws`, in order. */
  function QuestionIds(ws: seq<Write>): seq<string> {
    if ws == [] then [] else QuestionIds(ws[..|ws| - 1]) + (if ws[|ws| - 1].InsertQuestion? then [ws[|ws| - 1].questionId] else [])
  }

  lemma {:induction false} RowCountsAppend(a: seq<Write>, b: seq<Write>)
    ensures AnswerRows(a + b) == AnswerRows(a) + AnswerRows(b)
    ensures QuestionIds(a + b) == QuestionIds(a) + QuestionIds(b)
    decreases |b|
  {
    if b != [] {
      var init := b[..|b| - 1];
      var last := b[|b| - 1];
      assert (a + b)[..|a + b| - 1] == a + init;
      assert (a + b)[|a + b| - 1] == last;
      RowCountsAppend(a, init);
      var tail := if last.InsertQuestion? then [last.questionId] else [];
      assert QuestionIds(a + b) == QuestionIds(a + init) + tail;
      assert QuestionIds(b) == QuestionIds(init) + tail;
      assert QuestionIds(a) + QuestionIds(init) + tail == QuestionIds(a) + (QuestionIds(init) + tail);
    } else {
      assert a + b == a;
    }
  }

  /** A question written without exception writes its row, and one answer row exactly when
      it is answered. */
  lemma StepCounts(session: string, q: Value, i: nat)
    requires Autofill.Fillable(q)
    ensures AnswerRows(QuestionStep(session, q, i).writes) == (if Answered(q) then 1 else 0)
    ensures QuestionIds(QuestionStep(session, q, i).writes) == [QuestionId(session, i)]
  {
    var ws := QuestionStep(session, q, i).writes;
    SingleRow(ws[0]);
    if |ws| == 2 {
      PairRows(ws[0], ws[1]);
      assert ws == [ws[0], ws[1]];
    } else {
      assert ws == [ws[0]];
    }
  }

  lemma PairRows(a: Write, b: Write)
    ensures AnswerRows([a, b]) == AnswerRows([a]) + (if b.InsertAnswer? then 1 else 0)
    ensures QuestionIds([a, b]) == QuestionIds([a]) + (if b.InsertQuestion? then [b.questionId] else [])
  {
    assert [a, b][..1] == [a];
  }

  lemma SingleRow(w: Write)
    ensures AnswerRows([w]) == (if w.InsertAnswer? then 1 else 0)
    ensures QuestionIds([w]) == (if w.InsertQuestion? then [w.questionId] else [])
  {
    assert [w][..0] == [];
  }

  /** One more question written without exception adds its id and, when it is answered,
      one answer row. */
  lemma RowsStep(session: string, qs: seq<Value>, n: nat)
    requires 0 < n <= |qs| && Rows(QuestionSteps(session, qs), n).ok
    ensures Rows(QuestionSteps(session, qs), n - 1).ok
    ensures QuestionIds(Rows(QuestionSteps(session, qs), n).writes)
      == QuestionIds(Rows(QuestionSteps(session, qs), n - 1).writes) + [QuestionId(session, n - 1)]
    ensures AnswerRows(Rows(QuestionSteps(session, qs), n).writes)
      == AnswerRows(Rows(QuestionSteps(session, qs), n - 1).writes) + (if Answered(qs[n - 1]) then 1 else 0)
  {
    RowsSplit(session, qs, n);
    RowCountsAppend(Rows(QuestionSteps(session, qs), n - 1).writes, QuestionStep(session, qs[n - 1], n - 1).writes);
    StepCounts(session, qs[n - 1], n - 1);
  }

  lemma RowsSplit(session: string, qs: seq<Value>, n: nat)
    requires 0 < n <= |qs| && Rows(QuestionSteps(session, qs), n).ok
    ensures Rows(QuestionSteps(session, qs), n - 1).ok && QuestionStep(session, qs[n - 1], n - 1).ok
    ensures Rows(QuestionSteps(session, qs), n).writes
      == Rows(QuestionSteps(session, qs), n - 1).writes + QuestionStep(session, qs[n - 1], n - 1).writes
  {
    var steps := QuestionSteps(session, qs);
    assert steps[n - 1] == QuestionStep(session, qs[n - 1], n - 1);
    assert Rows(steps, n) == Then(Rows(steps, n - 1), steps[n - 1]);
  }

  /** The ids of the first `n` questions of a session, in order. */
  function QuestionIdList(session: string, n: nat): (ids: seq<string>)
    ensures |ids| == n
  {
    if n == 0 then [] else QuestionIdList(session, n - 1) + [QuestionId(session, n - 1)]
  }

  /** The i-th id of the list is `QuestionId(session, i)`. */
  lemma {:induction false} QuestionIdListAt(session: string, n: nat, i: nat)
    requires i < n
    ensures QuestionIdList(session, n)[i] == QuestionId(session, i)
    decreases n
  {
    if i < n - 1 {
      QuestionIdListAt(session, n - 1, i);
    }
  }

  /** Writing `qs[..n]` without exception gives the questions the ids of
      `QuestionIdList(session, n)`, in order. */
  lemma {:induction false} QuestionIdsInOrder(session: string, qs: seq<Value>, n: nat)
    requires n <= |qs| && Rows(QuestionSteps(session, qs), n).ok
    ensures QuestionIds(Rows(QuestionSteps(session, qs), n).writes) == QuestionIdList(session, n)
    decreases n
  {
    if n > 0 {
      RowsStep(session, qs, n);
      QuestionIdsInOrder(session, qs, n - 1);
    }
  }

  /** `Answers` counts one more for one more answered question. */
  lemma AnswersStep(qs: seq<Value>, n: nat)
    requires 0 < n <= |qs|
    ensures |Sales.Answers(qs[..n])| == |Sales.Answers(qs[..n - 1])| + (if Answered(qs[n - 1]) then 1 else 0)
  {
    assert qs[..n][..n - 1] == qs[..n - 1];
    assert qs[..n][n - 1] == qs[n - 1];
  }

  /** Writing `qs[..n]` without exception writes one answer row per answered
      question. */
  lemma {:induction false} AnswerRowsCount(session: string, qs: seq<Value>, n: nat)
    requires n <= |qs| && Rows(QuestionSteps(session, qs), n).ok
    ensures AnswerRows(Rows(QuestionSteps(session, qs), n).writes) == |Sales.Answers(qs[..n])|
    decreases n
  {
    if n > 0 {
      RowsStep(session, qs, n);
      AnswerRowsCount(session, qs, n - 1);
      AnswersStep(qs, n);
    }
  }

  /** The loop over the questions, one numbered insert at a time. */
  method WriteQuestions(session: string, qs: seq<Value>) returns (stage: Stage)
    ensures stage == Rows(QuestionSteps(session, qs), |qs|)
  {
    var writes: seq<Write> := [];
    for i := 0 to |qs|
      invariant Rows(QuestionSteps(session, qs), i) == Stage(writes, true)
    {
      var step := QuestionStep(session, qs[i], i);
      writes := writes + step.writes;
      if !step.ok {
        RowsStuck(QuestionSteps(session, qs), i + 1, |qs|);
        return Stage(writes, false);
      }
    }
    stage := Stage(writes, true);
  }

  // ----- Content rows -----

  /** One entry of `content_items`: a type with either a text or a JSON payload (`VNone`
      for Python's `None`). */
  datatype ContentItem = ContentItem(kind: string, text: Value, data: Value)

  /** `content_items`: the three texts, then the roadmap records when the roadmap frame is
      not empty, then truthy outreach emails and LinkedIn messages. A frame is held as its
      rows (a list) or its columns (a dictionary); a `roadmap_df` that is neither absent
      nor a frame raises on `.empty`. */
  function ContentItems(m: map<string, Value>): (r: Option<seq<ContentItem>>)
    ensures var roadmap := GetOr(m, "roadmap_df", VNone);
      r.None? <==> !roadmap.VNone? && SessionManagement.Frame(roadmap).None?
    ensures r.Some? ==> |r.value| >= 3
    ensures r.Some? ==> r.value[..3] == [
      ContentItem("business_case", GetOr(m, "business_case", VStr("")), VNone),
      ContentItem("competitive_strategy", GetOr(m, "competitive_strategy", VStr("")), VNone),
      ContentItem("value_hypothesis", GetOr(m, "initial_value_hypothesis", VStr("")), VNone)]
    ensures r.Some? ==> var roadmap := GetOr(m, "roadmap_df", VNone);
      (ContentItem("roadmap", VNone, roadmap) in r.value <==> Truthy(roadmap))
    ensures r.Some? ==> var emails := GetOr(m, "outreach_emails", VNone);
      (ContentItem("outreach_emails", VNone, emails) in r.value <==> Truthy(emails))
    ensures r.Some? ==> var linkedin := GetOr(m, "linkedin_messages", VNone);
      (ContentItem("linkedin_messages", VNone, linkedin) in r.value <==> Truthy(linkedin))
    ensures r.Some? ==> forall c :: c in r.value[3..] ==> c.text == VNone && Truthy(c.data)
  {
    var roadmap := GetOr(m, "roadmap_df", VNone);
    if !roadmap.VNone? && SessionManagement.Frame(roadmap).None? then None
    else
      var texts := ContentTexts(m);
      var tail := ContentPayloads(roadmap, GetOr(m, "outreach_emails", VNone), GetOr(m, "linkedin_messages", VNone));
      assert (texts + tail)[..3] == texts;
      assert (texts + tail)[3..] == tail;
      Some(texts + tail)
  }

  /** The three text items, none of which has a payload. */
  function ContentTexts(m: map<string, Value>): (r: seq<ContentItem>)
    ensures |r| == 3
    ensures forall c :: c in r ==>
      c.data == VNone && c.kind != "roadmap" && c.kind != "outreach_emails" && c.kind != "linkedin_messages"
  {
    [ContentItem("business_case", GetOr(m, "business_case", VStr("")), VNone),
     ContentItem("competitive_strategy", GetOr(m, "competitive_strategy", VStr("")), VNone),
     ContentItem("value_hypothesis", GetOr(m, "initial_value_hypothesis", VStr("")), VNone)]
  }

  /** The payload items: each of the roadmap, the emails and the messages exactly when it is
      truthy, in that order. */
  function ContentPayloads(roadmap: Value, emails: Value, linkedin: Value): (r: seq<ContentItem>)
    ensures ContentItem("roadmap", VNone, roadmap) in r <==> Truthy(roadmap)
    ensures ContentItem("outreach_emails", VNone, emails) in r <==> Truthy(emails)
    ensures ContentItem("linkedin_messages", VNone, linkedin) in r <==> Truthy(linkedin)
    ensures forall c :: c in r ==> c.text == VNone && Truthy(c.data)
  {
    var a, b, c := Appended("roadmap", roadmap), Appended("outreach_emails", emails), Appended("linkedin_messages", linkedin);
    assert forall x :: x in a + b + c <==> x in a || x in b || x in c;
    a + b + c
  }

  /** The item appended for a truthy payload of type `kind`; none for a falsy one. */
  function Appended(kind: string, data: Value): (r: seq<ContentItem>)
    ensures forall c :: c in r <==> Truthy(data) && c == ContentItem(kind, VNone, data)
    ensures |r| <= 1
  {
    if Truthy(data) then [ContentItem(kind, VNone, data)] else []
  }

  /** `f"{session_id}-content-{content_type}"` */
  function ContentId(session: string, kind: string): string {
    session + "-content-" + kind
  }

  /** The row for one content item: written only when its text is not blank or its
      payload is truthy, with the payload when there is one. A truthy text that is not a
      string raises on `.strip()`. */
  function ContentStep(session: string, item: ContentItem): (r: Stage)
    ensures r.ok <==> !Truthy(item.text) || item.text.VStr?
    ensures r.writes != [] <==> r.ok && (NonBlankStr(item.text) || Truthy(item.data))
    ensures |r.writes| <= 1
    ensures r.writes != [] ==> FilledRow(r.writes[0]) && r.writes[0].contentId == ContentId(session, item.kind)
  {
    if Truthy(item.text) && !item.text.VStr? then Stage([], false)
    else if NonBlankStr(item.text) || Truthy(item.data) then
      var id := ContentId(session, item.kind);
      Stage([if Truthy(item.data) then InsertContentData(id, session, item.kind, item.data)
             else InsertContentText(id, session, item.kind, item.text.s)], true)
    else Stage([], true)
  }

  /** A content row with something in it: a non-blank text or a truthy payload. */
  predicate FilledRow(w: Write) {
    (w.InsertContentText? && !IsBlank(w.body)) || (w.InsertContentData? && Truthy(w.data))
  }

  function ContentSteps(session: string, items: seq<ContentItem>): (r: seq<Stage>)
    ensures |r| == |items|
  {
    seq(|items|, i requires 0 <= i < |items| => ContentStep(session, items[i]))
  }

  /** Part 3 of the save: the content items are gathered, the old content rows deleted, and
      one row written per item with something in it. */
  function ContentStage(m: map<string, Value>, session: string): Stage {
    match ContentItems(m)
    case None => Stage([], false)
    case Some(items) => Then(Stage([DeleteContent(session)], true), Rows(ContentSteps(session, items), |items|))
  }

  /** Every row the content loop writes has something in it. */
  lemma {:induction false} ContentRowsFilled(session: string, items: seq<ContentItem>, n: nat)
    requires n <= |items|
    ensures forall j :: 0 <= j < |Rows(ContentSteps(session, items), n).writes| ==>
      FilledRow(Rows(ContentSteps(session, items), n).writes[j])
    decreases n
  {
    if n > 0 {
      ContentRowsFilled(session, items, n - 1);
    }
  }

  /** The loop over the content items. */
  method WriteContent(session: string, items: seq<ContentItem>) returns (stage: Stage)
    ensures stage == Rows(ContentSteps(session, items), |items|)
  {
    var writes: seq<Write> := [];
    for i := 0 to |items|
      invariant Rows(ContentSteps(session, items), i) == Stage(writes, true)
    {
      var step := ContentStep(session, items[i]);
      writes := writes + step.writes;
      if !step.ok {
        RowsStuck(ContentSteps(session, items), i + 1, |items|);
        return Stage(writes, false);
      }
    }
    stage := Stage(writes, true);
  }

  // ----- Contact rows -----

  /** `f"{session_id}-contact-{i+1}"` */
  function ContactId(session: string, i: nat): string {
    session + "-contact-" + NatToString(i + 1)
  }

  /** The row of the i-th researched person; a person that is not a dictionary raises. */
  function ContactStep(session: string, person: Value, i: nat): (r: Stage)
    ensures r.ok <==> person.VDict?
    ensures r.ok ==> |r.writes| == 1 && r.writes[0].InsertContact? && r.writes[0].contactId == ContactId(session, i)
    ensures !r.ok ==> r.writes == []
  {
    if !person.VDict? then Stage([], false)
    else Stage([InsertContact(ContactId(session, i), session, Get(person, "name", VStr("")),
      Get(person, "title", VStr("")), Get(person, "linkedin", VStr("")), Get(person, "background", VStr("")),
      Get(person, "type", VStr("stakeholder")))], true)
  }

  function ContactSteps(session: string, people: seq<Value>): (r: seq<Stage>)
    ensures |r| == |people|
  {
    seq(|people|, i requires 0 <= i < |people| => ContactStep(session, people[i], i))
  }

  /** Part 4 of the save: for truthy `people_research`, the old contacts are deleted and
      one row is written per person. */
  function ContactsStage(session: string, people: Value): Stage {
    if !Truthy(people) then Stage([], true)
    else Then(Stage([DeleteContacts(session)], true),
              if people.VList? then Rows(ContactSteps(session, people.items), |people.items|)
              else Stage([], false))
  }

  /** The loop over the researched people. */
  method WriteContacts(session: string, people: seq<Value>) returns (stage: Stage)
    ensures stage == Rows(ContactSteps(session, people), |people|)
  {
    var writes: seq<Write> := [];
    for i := 0 to |people|
      invariant Rows(ContactSteps(session, people), i) == Stage(writes, true)
    {
      var step := ContactStep(session, people[i], i);
      writes := writes + step.writes;
      if !step.ok {
        RowsStuck(ContactSteps(session, people), i + 1, |people|);
        return Stage(writes, false);
      }
    }
    stage := Stage(writes, true);
  }

  // ----- save_current_session -----

  /** The store after a save, the writes it issued and whether it returns `True`. */
  datatype SavingV2 = SavingV2(state: map<string, Value>, stage: Stage)

  /** The session row, then the question, content and contact parts, for a company that
      has a name and an id fixed. */
  function SaveParts(m: map<string, Value>, session: string, name: string, companyName: Value, info: Value): Stage
    requires info.VDict?
  {
    var merge := MergeSession(session, name, GetOr(m, "user_email", VStr("demo_user@company.com")),
      companyName, Get(info, "website", VNone), GetOr(m, "competitor", VNone),
      GetOr(m, "contact_name", VNone), GetOr(m, "contact_title", VNone));
    Then(Then(Then(Stage([merge], true), QuestionsStage(session, GetOr(m, "questions", VList([])))),
              ContentStage(m, session)),
         ContactsStage(session, GetOr(m, "people_research", VList([]))))
  }

  /** What `save_current_session` does to the store and the tables; the session id is
      written through `str`. */
  function Save(m: map<string, Value>, newId: string, date: string, show: Value -> string): SavingV2 {
    var info := GetOr(m, "company_info", VDict([]));
    if !info.VDict? || !SessionManagement.HasCompany(info) then SavingV2(m, Stage([], false))
    else
      var stored := SessionManagement.WithSessionId(m, newId);
      var session := PyStr(SessionManagement.SessionId(m, newId), show);
      match SaveCompanyName(info)
      case None => SavingV2(stored, Stage([], false))
      case Some(companyName) =>
        SavingV2(stored, SaveParts(m, session, SaveSessionName(companyName, date, show), companyName, info))
  }

  /** Validates the company, fixes the session id, and issues the session merge and the
      question, content and contact rows; every exception is caught and reported as
      `False`. */
  method SaveCurrentSession(s: Session, newId: string, date: string, show: Value -> string)
    returns (saved: bool, writes: seq<Write>)
    modifies s
    ensures Save(old(s.state), newId, date, show) == SavingV2(s.state, Stage(writes, saved))
  {
    var m := s.state;
    var info := GetOr(m, "company_info", VDict([]));
    if !info.VDict? || (!Truthy(Get(info, "website", VNone)) && !Truthy(Get(info, "name", VNone))) {
      return false, [];
    }
    var id := GetOr(m, "current_session_id", VNone);
    if !Truthy(id) {
      id := VStr(newId);
      s.state := s.state["current_session_id" := id];
    }
    assert s.state == SessionManagement.WithSessionId(m, newId) && id == SessionManagement.SessionId(m, newId);
    var companyName := SaveCompanyName(info);
    if companyName.None? {
      return false, [];
    }
    var stage := WriteParts(m, PyStr(id, show), SaveSessionName(companyName.value, date, show), companyName.value, info);
    saved, writes := stage.ok, stage.writes;
  }

  /** Issues the four parts in order, stopping at the first exception. */
  method WriteParts(m: map<string, Value>, session: string, name: string, companyName: Value, info: Value)
    returns (stage: Stage)
    requires info.VDict?
    ensures stage == SaveParts(m, session, name, companyName, info)
  {
    stage := Stage([MergeSession(session, name, GetOr(m, "user_email", VStr("demo_user@company.com")),
      companyName, Get(info, "website", VNone), GetOr(m, "competitor", VNone),
      GetOr(m, "contact_name", VNone), GetOr(m, "contact_title", VNone))], true);
    var questions := GetOr(m, "questions", VList([]));
    var part := Stage([], true);
    if Truthy(questions) {
      part := Stage([DeleteQuestions(session), DeleteAnswers(session)], true);
      if questions.VList? {
        var rows := WriteQuestions(session, questions.items);
        part := Then(part, rows);
      } else {
        part := Then(part, Stage([], false));
      }
    }
    assert part == QuestionsStage(session, questions);
    stage := Then(stage, part);
    if !stage.ok {
      return;
    }
    var items := ContentItems(m);
    if items.None? {
      stage := Then(stage, Stage([], false));
      return;
    }
    var content := WriteContent(session, items.value);
    stage := Then(stage, Then(Stage([DeleteContent(session)], true), content));
    if !stage.ok {
      return;
    }
    var people := GetOr(m, "people_research", VList([]));
    part := Stage([], true);
    if Truthy(people) {
      part := Stage([DeleteContacts(session)], true);
      if people.VList? {
        var rows := WriteContacts(session, people.items);
        part := Then(part, rows);
      } else {
        part := Then(part, Stage([], false));
      }
    }
    stage := Then(stage, part);
  }

  /** Old question and answer rows are deleted only when there are questions to write, and
      a completed question part writes the i-th question as `QuestionId(session, i)`
      with one answer row per answered question. */
  lemma QuestionsStageSpec(session: string, questions: Value)
    ensures DeleteQuestions(session) in QuestionsStage(session, questions).writes <==> Truthy(questions)
    ensures QuestionsStage(session, questions).ok && questions.VList? ==>
      var rows := Rows(QuestionSteps(session, questions.items), |questions.items|).writes;
      QuestionIds(rows) == QuestionIdList(session, |questions.items|)
      && AnswerRows(rows) == |Sales.Answers(questions.items)|
  {
    if Truthy(questions) && questions.VList? {
      var qs := questions.items;
      QuestionRowsOnly(session, qs, |qs|);
      if QuestionsStage(session, questions).ok {
        QuestionIdsInOrder(session, qs, |qs|);
        AnswerRowsCount(session, qs, |qs|);
        assert qs[..|qs|] == qs;
      }
    } else if !Truthy(questions) {
      assert QuestionsStage(session, questions).writes == [];
    }
  }

  /** The question loop writes only question and answer rows. */
  lemma {:induction false} QuestionRowsOnly(session: string, qs: seq<Value>, n: nat)
    requires n <= |qs|
    ensures forall w :: w in Rows(QuestionSteps(session, qs), n).writes ==> w.InsertQuestion? || w.InsertAnswer?
    decreases n
  {
    if n > 0 {
      QuestionRowsOnly(session, qs, n - 1);
      assert QuestionSteps(session, qs)[n - 1] == QuestionStep(session, qs[n - 1], n - 1);
      StepRowsOnly(session, qs[n - 1], n - 1);
    }
  }

  /** One question writes only its question row and its answer row. */
  lemma StepRowsOnly(session: string, q: Value, i: nat)
    ensures forall w :: w in QuestionStep(session, q, i).writes ==> w.InsertQuestion? || w.InsertAnswer?
  {
  }

  // ----- load_session_data -----

  /** A row of `discovery_sessions`, one field per selected column; `VNone` is SQL NULL. */
  datatype SessionRow = SessionRow(
    sessionId: Value, sessionName: Value, userEmail: Value, companyName: Value, companyWebsite: Value,
    competitor: Value, contactName: Value, contactTitle: Value, notes: Value)

  /** A row of the questions joined with their answers. */
  datatype QaRow = QaRow(
    questionId: Value, category: Value, questionText: Value, explanation: Value, importance: Value,
    questionOrder: Value, answerText: Value, confidence: Value)

  /** A row of `session_content`. */
  datatype ContentRow = ContentRow(contentType: Value, contentText: Value, contentData: Value)

  /** A row of `session_contacts`. */
  datatype ContactRow = ContactRow(
    contactName: Value, contactTitle: Value, contactLinkedin: Value, backgroundNotes: Value, contactType: Value)

  /** A loaded answer: a question without an answer (`NaN` from the outer join) gets "". */
  function AnswerOf(row: QaRow): (a: Value)
    ensures row.answerText.VNone? ==> a == VStr("")
    ensures !row.answerText.VNone? ==> a == row.answerText
  {
    if row.answerText.VNone? then VStr("") else row.answerText
  }

  /** The question dictionary rebuilt from one joined row. */
  function QuestionOf(row: QaRow): (q: Value)
    ensures q.VDict?
  {
    VDict([
      ("id", row.questionId),
      ("text", row.questionText),
      ("category", row.category),
      ("explanation", row.explanation),
      ("importance", row.importance),
      ("answer", AnswerOf(row))])
  }

  /** A rebuilt question's answer is the row's answer, with a missing one as "", and its
      text is the row's question text. */
  lemma QuestionOfFields(row: QaRow)
    ensures Get(QuestionOf(row), "answer", VNone) == AnswerOf(row)
    ensures Get(QuestionOf(row), "text", VNone) == row.questionText
  {
    KeyIndexAt(QuestionOf(row).entries, "answer", 5);
    KeyIndexAt(QuestionOf(row).entries, "text", 1);
  }

  /** The questions rebuilt from the joined rows, one per row and in the rows' order. */
  function QuestionsOf(rows: seq<QaRow>): (qs: seq<Value>)
    ensures |qs| == |rows| && forall i :: 0 <= i < |rows| ==> qs[i] == QuestionOf(rows[i])
  {
    if rows == [] then [] else QuestionsOf(rows[..|rows| - 1]) + [QuestionOf(rows[|rows| - 1])]
  }

  /** The contact dictionary rebuilt from one contact row. */
  function ContactOf(row: ContactRow): (c: Value)
    ensures c.VDict?
  {
    VDict([
      ("name", row.contactName),
      ("title", row.contactTitle),
      ("linkedin", row.contactLinkedin),
      ("background", row.backgroundNotes),
      ("type", row.contactType)])
  }

  /** A rebuilt contact's name, title and type are the row's. */
  lemma ContactOfFields(row: ContactRow)
    ensures Get(ContactOf(row), "name", VNone) == row.contactName
    ensures Get(ContactOf(row), "title", VNone) == row.contactTitle
    ensures Get(ContactOf(row), "type", VNone) == row.contactType
  {
    var entries := ContactOf(row).entries;
    KeyIndexAt(entries, "name", 0);
    KeyIndexAt(entries, "title", 1);
    KeyIndexAt(entries, "type", 4);
  }

  /** The researched people rebuilt from the contact rows, one per row and in order. */
  function ContactsOf(rows: seq<ContactRow>): (people: seq<Value>)
    ensures |people| == |rows| && forall i :: 0 <= i < |rows| ==> people[i] == ContactOf(rows[i])
  {
    if rows == [] then [] else ContactsOf(rows[..|rows| - 1]) + [ContactOf(rows[|rows| - 1])]
  }

  /** The position of the first contact row from `from` on whose type is 'primary', or
      -1; a rebuilt contact's 'type' is its row's type. */
  function FirstPrimary(rows: seq<ContactRow>, from: nat): (r: int)
    requires from <= |rows|
    ensures -1 <= r < |rows|
    ensures r >= 0 ==> from <= r && rows[r].contactType == VStr("primary")
    ensures forall j :: from <= j < |rows| && (r == -1 || j < r) ==> rows[j].contactType != VStr("primary")
    decreases |rows| - from
  {
    if from == |rows| then -1
    else if rows[from].contactType == VStr("primary") then from
    else FirstPrimary(rows, from + 1)
  }

  /** A stored payload: a string is parsed, anything else is taken as it is. */
  function Parsed(data: Value, loads: string -> Option<Value>): Option<Value> {
    if data.VStr? then loads(data.s) else Some(data)
  }

  /** The keys a content row can set. */
  predicate ContentKey(k: string) {
    k == "business_case" || k == "competitive_strategy" || k == "initial_value_hypothesis"
    || k == "roadmap" || k == "roadmap_df" || k == "outreach_emails" || k == "linkedin_messages"
  }

  /** The payload a row of `kind` restores: a truthy payload, parsed, that is a frame for a
      roadmap; `None` when it is missing or parsing or building the frame raises. */
  function Payload(kind: Value, data: Value, loads: string -> Option<Value>): (r: Option<Value>)
    ensures r.Some? ==> Truthy(data)
    ensures r.Some? && kind == VStr("roadmap") ==> r.value.VList? || r.value.VDict?
  {
    if !Truthy(data) then None
    else match Parsed(data, loads)
      case None => None
      case Some(v) => if kind == VStr("roadmap") then SessionManagement.Frame(v) else Some(v)
  }

  /** One content row restored: the texts are assigned as they are; the payload of a
      roadmap, outreach emails or LinkedIn messages is assigned when there is one; other
      types are ignored. */
  function ApplyContent(m: map<string, Value>, row: ContentRow, loads: string -> Option<Value>): (r: map<string, Value>)
    ensures forall k :: !ContentKey(k) ==> (k in r <==> k in m) && (k in m ==> r[k] == m[k])
  {
    var kind := row.contentType;
    var payload := Payload(kind, row.contentData, loads);
    if kind == VStr("business_case") then m["business_case" := row.contentText]
    else if kind == VStr("competitive_strategy") then m["competitive_strategy" := row.contentText]
    else if kind == VStr("value_hypothesis") then m["initial_value_hypothesis" := row.contentText]
    else if payload.None? then m
    else if kind == VStr("roadmap") then m["roadmap" := payload.value]["roadmap_df" := payload.value]
    else if kind == VStr("outreach_emails") then m["outreach_emails" := payload.value]
    else if kind == VStr("linkedin_messages") then m["linkedin_messages" := payload.value]
    else m
  }

  /** The content rows restored in order. */
  function RestoreContent(m: map<string, Value>, rows: seq<ContentRow>, loads: string -> Option<Value>)
    : map<string, Value>
  {
    if rows == [] then m else ApplyContent(RestoreContent(m, rows[..|rows| - 1], loads), rows[|rows| - 1], loads)
  }

  /** Restoring content leaves every key outside the content keys as it was. */
  lemma {:induction false} RestoreContentOthers(m: map<string, Value>, rows: seq<ContentRow>,
                                                loads: string -> Option<Value>, k: string)
    requires !ContentKey(k)
    ensures k in RestoreContent(m, rows, loads) <==> k in m
    ensures k in m ==> RestoreContent(m, rows, loads)[k] == m[k]
    decreases |rows|
  {
    if rows != [] {
      RestoreContentOthers(m, rows[..|rows| - 1], loads, k);
    }
  }

  /** The keys the session row sets. */
  predicate HeaderKey(k: string) {
    k == "current_session_id" || k == "company_info" || k == "contact_name" || k == "contact_title" || k == "competitor"
  }

  /** The company restored from the session row: the stored company name serves as both
      the name and the account name. */
  function CompanyOf(info: SessionRow): (c: Value)
    ensures c.VDict?
  {
    VDict([("name", info.companyName), ("website", info.companyWebsite), ("account_name", info.companyName)])
  }

  /** The restored company names the stored company and website. */
  lemma CompanyOfFields(info: SessionRow)
    ensures Get(CompanyOf(info), "name", VNone) == info.companyName
    ensures Get(CompanyOf(info), "website", VNone) == info.companyWebsite
    ensures Get(CompanyOf(info), "account_name", VNone) == info.companyName
  {
    var entries := CompanyOf(info).entries;
    KeyIndexAt(entries, "name", 0);
    KeyIndexAt(entries, "website", 1);
    KeyIndexAt(entries, "account_name", 2);
  }

  /** The store after the session row is restored: the id, the company, and the contact
      and competitor fields that are truthy in the row. */
  function Header(m: map<string, Value>, session: string, info: SessionRow): (r: map<string, Value>)
    ensures "current_session_id" in r && r["current_session_id"] == VStr(session)
    ensures "company_info" in r && r["company_info"] == CompanyOf(info)
    ensures Truthy(info.contactName) ==> "contact_name" in r && r["contact_name"] == info.contactName
    ensures !Truthy(info.contactName) ==> (("contact_name" in r <==> "contact_name" in m)
      && ("contact_name" in m ==> r["contact_name"] == m["contact_name"]))
    ensures forall k :: !HeaderKey(k) ==> (k in r <==> k in m) && (k in m ==> r[k] == m[k])
  {
    var m1 := m["current_session_id" := VStr(session)]["company_info" := CompanyOf(info)];
    var m2 := if Truthy(info.contactName) then m1["contact_name" := info.contactName] else m1;
    var m3 := if Truthy(info.contactTitle) then m2["contact_title" := info.contactTitle] else m2;
    if Truthy(info.competitor) then m3["competitor" := info.competitor] else m3
  }

  /** The store after the session row, the questions and the content are restored. */
  function Restored(m: map<string, Value>, session: string, info: SessionRow, qaRows: seq<QaRow>,
                    contentRows: seq<ContentRow>, loads: string -> Option<Value>): map<string, Value>
  {
    RestoreContent(Header(m, session, info)["questions" := VList(QuestionsOf(qaRows))], contentRows, loads)
  }

  /** The researched people restored, and the first 'primary' contact made the contact
      (its name and title are its row's); nothing changes without contact rows. */
  function WithContacts(m: map<string, Value>, contactRows: seq<ContactRow>): (r: map<string, Value>)
    ensures contactRows == [] ==> r == m
    ensures contactRows != [] ==> "people_research" in r && r["people_research"] == VList(ContactsOf(contactRows))
    ensures var k := FirstPrimary(contactRows, 0);
      k >= 0 ==> ("contact_name" in r && r["contact_name"] == contactRows[k].contactName
        && "contact_title" in r && r["contact_title"] == contactRows[k].contactTitle)
    ensures FirstPrimary(contactRows, 0) == -1 ==>
      ("contact_name" in r <==> "contact_name" in m) && ("contact_name" in m ==> r["contact_name"] == m["contact_name"])
    ensures forall k :: k != "people_research" && k != "contact_name" && k != "contact_title" ==>
      (k in r <==> k in m) && (k in m ==> r[k] == m[k])
  {
    if contactRows == [] then m
    else
      var people := ContactsOf(contactRows);
      var p := m["people_research" := VList(people)];
      var k := FirstPrimary(contactRows, 0);
      if k == -1 then p
      else p["contact_name" := contactRows[k].contactName]["contact_title" := contactRows[k].contactTitle]
  }

  /** The store after a load and whether it returns `True`. */
  datatype Loaded = Loaded(state: map<string, Value>, ok: bool)

  /** Every answer of the rebuilt questions is a string, so counting them does not raise. */
  predicate AnswersAreText(qaRows: seq<QaRow>) {
    forall i :: 0 <= i < |qaRows| ==> AnswerOf(qaRows[i]).VStr?
  }

  /** What `load_session_data(session_id)` does, given the rows its four queries return:
      the store is cleared first and a missing session stops there; otherwise the session
      row, questions, content and contacts are restored, and the answered count of the
      closing message raises on an answer that is not a string. */
  function Load(m: map<string, Value>, session: string, sessionRows: seq<SessionRow>, qaRows: seq<QaRow>,
                contentRows: seq<ContentRow>, contactRows: seq<ContactRow>, loads: string -> Option<Value>): (r: Loaded)
    ensures sessionRows == [] ==> r == Loaded(Without(m, Members(ClearKeys)), false)
    ensures sessionRows != [] ==> (r.ok <==> AnswersAreText(qaRows))
  {
    var cleared := Without(m, Members(ClearKeys));
    if sessionRows == [] then Loaded(cleared, false)
    else
      Loaded(WithContacts(Restored(cleared, session, sessionRows[0], qaRows, contentRows, loads), contactRows),
             AnswersAreText(qaRows))
  }

  /** Clears the store, reads the session row, and restores the company, the contact
      fields, the questions, the content and the contacts in that order. */
  method LoadSessionData(s: Session, session: string, sessionRows: seq<SessionRow>, qaRows: seq<QaRow>,
                         contentRows: seq<ContentRow>, contactRows: seq<ContactRow>, loads: string -> Option<Value>)
    returns (loaded: bool)
    modifies s
    ensures Load(old(s.state), session, sessionRows, qaRows, contentRows, contactRows, loads) == Loaded(s.state, loaded)
  {
    var _ := ClearSessionData(s);
    if sessionRows == [] {
      return false;
    }
    RestoreHeader(s, session, sessionRows[0]);
    var questions := BuildQuestions(qaRows);
    s.state := s.state["questions" := VList(questions)];
    RestoreContentRows(s, contentRows, loads);
    RestoreContacts(s, contactRows);
    loaded := AnswersAreText(qaRows);
  }

  /** The assignments from the session row. */
  method RestoreHeader(s: Session, session: string, info: SessionRow)
    modifies s
    ensures s.state == Header(old(s.state), session, info)
  {
    s.state := s.state["current_session_id" := VStr(session)];
    s.state := s.state["company_info" := CompanyOf(info)];
    if Truthy(info.contactName) {
      s.state := s.state["contact_name" := info.contactName];
    }
    if Truthy(info.contactTitle) {
      s.state := s.state["contact_title" := info.contactTitle];
    }
    if Truthy(info.competitor) {
      s.state := s.state["competitor" := info.competitor];
    }
  }

  /** The loop rebuilding the question list. */
  method BuildQuestions(qaRows: seq<QaRow>) returns (questions: seq<Value>)
    ensures questions == QuestionsOf(qaRows)
  {
    questions := [];
    for i := 0 to |qaRows|
      invariant questions == QuestionsOf(qaRows[..i])
    {
      assert qaRows[..i + 1][..i] == qaRows[..i];
      questions := questions + [QuestionOf(qaRows[i])];
    }
    assert qaRows[..|qaRows|] == qaRows;
  }

  /** The loop restoring the content rows. */
  method RestoreContentRows(s: Session, rows: seq<ContentRow>, loads: string -> Option<Value>)
    modifies s
    ensures s.state == RestoreContent(old(s.state), rows, loads)
  {
    for i := 0 to |rows|
      invariant s.state == RestoreContent(old(s.state), rows[..i], loads)
    {
      assert rows[..i + 1][..i] == rows[..i];
      s.state := ApplyContent(s.state, rows[i], loads);
    }
    assert rows[..|rows|] == rows;
  }

  /** The researched people and the primary contact. */
  method RestoreContacts(s: Session, contactRows: seq<ContactRow>)
    modifies s
    ensures s.state == WithContacts(old(s.state), contactRows)
  {
    if contactRows != [] {
      var people := BuildPeople(contactRows);
      s.state := s.state["people_research" := VList(people)];
      var k := FindPrimary(people, contactRows);
      if k != -1 {
        ContactOfFields(contactRows[k]);
        s.state := s.state["contact_name" := Get(people[k], "name", VNone)];
        s.state := s.state["contact_title" := Get(people[k], "title", VNone)];
      }
    }
  }

  /** The loop rebuilding the researched people. */
  method BuildPeople(contactRows: seq<ContactRow>) returns (people: seq<Value>)
    ensures people == ContactsOf(contactRows)
  {
    people := [];
    for i := 0 to |contactRows|
      invariant people == ContactsOf(contactRows[..i])
    {
      assert contactRows[..i + 1][..i] == contactRows[..i];
      people := people + [ContactOf(contactRows[i])];
    }
    assert contactRows[..|contactRows|] == contactRows;
  }

  /** `next((c for c in people if c['type'] == 'primary'), None)` as a position. */
  method FindPrimary(people: seq<Value>, ghost rows: seq<ContactRow>) returns (k: int)
    requires people == ContactsOf(rows)
    ensures k == FirstPrimary(rows, 0)
  {
    var i := 0;
    while i < |people|
      invariant 0 <= i <= |people|
      invariant FirstPrimary(rows, 0) == FirstPrimary(rows, i)
    {
      ContactOfFields(rows[i]);
      if Get(people[i], "type", VNone) == VStr("primary") {
        return i;
      }
      i := i + 1;
    }
    return -1;
  }

  /** After the session row, questions and content are restored, the session id is the
      one loaded, the questions are the rebuilt rows, and the contact is the session row's
      when that is truthy and absent otherwise. */
  lemma RestoredSpec(m: map<string, Value>, session: string, info: SessionRow, qaRows: seq<QaRow>,
                     contentRows: seq<ContentRow>, loads: string -> Option<Value>)
    requires "contact_name" !in m
    ensures var r := Restored(m, session, info, qaRows, contentRows, loads);
      "current_session_id" in r && r["current_session_id"] == VStr(session)
      && "company_info" in r && r["company_info"] == CompanyOf(info)
      && "questions" in r && r["questions"] == VList(QuestionsOf(qaRows))
      && ("contact_name" in r <==> Truthy(info.contactName))
      && ("contact_name" in r ==> r["contact_name"] == info.contactName)
  {
    var withQuestions := Header(m, session, info)["questions" := VList(QuestionsOf(qaRows))];
    RestoreContentOthers(withQuestions, contentRows, loads, "current_session_id");
    RestoreContentOthers(withQuestions, contentRows, loads, "company_info");
    RestoreContentOthers(withQuestions, contentRows, loads, "questions");
    RestoreContentOthers(withQuestions, contentRows, loads, "contact_name");
  }

  /** After a load of a saved session, the session id is the one loaded, the company is
      the stored one and the questions are the rebuilt rows; the contact is the first
      'primary' contact when there is one, and otherwise the session row's contact when
      that is truthy. */
  lemma LoadRestores(m: map<string, Value>, session: string, sessionRows: seq<SessionRow>, qaRows: seq<QaRow>,
                     contentRows: seq<ContentRow>, contactRows: seq<ContactRow>, loads: string -> Option<Value>)
    requires sessionRows != []
    ensures var r := Load(m, session, sessionRows, qaRows, contentRows, contactRows, loads).state;
      "current_session_id" in r && r["current_session_id"] == VStr(session)
      && "company_info" in r && r["company_info"] == CompanyOf(sessionRows[0])
      && "questions" in r && r["questions"] == VList(QuestionsOf(qaRows))
    ensures var r := Load(m, session, sessionRows, qaRows, contentRows, contactRows, loads).state;
      var k := FirstPrimary(contactRows, 0);
      var named := sessionRows[0].contactName;
      (k >= 0 ==> "contact_name" in r && r["contact_name"] == contactRows[k].contactName)
      && (k == -1 ==> ("contact_name" in r <==> Truthy(named)) && (Truthy(named) ==> r["contact_name"] == named))
  {
    var cleared := Without(m, Members(ClearKeys));
    assert "contact_name" !in cleared by { assert ClearKeys[16] == "contact_name"; }
    RestoredSpec(cleared, session, sessionRows[0], qaRows, contentRows, loads);
  }

  /** Every key a load sets is one that clearing removes. */
  lemma LoadKeysCleared(k: string)
    ensures HeaderKey(k) || k == "questions" || ContentKey(k) || k == "people_research" ==> k in Members(ClearKeys)
  {
    assert ClearKeys[0] == "questions" && ClearKeys[3] == "current_session_id" && ClearKeys[1] == "company_info";
    assert ClearKeys[15] == "competitor" && ClearKeys[16] == "contact_name" && ClearKeys[17] == "contact_title";
    assert ClearKeys[12] == "people_research" && ClearKeys[5] == "roadmap" && ClearKeys[6] == "roadmap_df";
    assert ClearKeys[7] == "competitive_strategy" && ClearKeys[8] == "business_case";
    assert ClearKeys[9] == "initial_value_hypothesis" && ClearKeys[10] == "outreach_emails";
    assert ClearKeys[11] == "linkedin_messages";
  }

  /** A load changes only keys that clearing removes: every other key of the store
      keeps its presence and its value. */
  lemma LoadKeepsOthers(m: map<string, Value>, session: string, sessionRows: seq<SessionRow>, qaRows: seq<QaRow>,
                        contentRows: seq<ContentRow>, contactRows: seq<ContactRow>, loads: string -> Option<Value>,
                        k: string)
    requires k !in Members(ClearKeys)
    ensures var r := Load(m, session, sessionRows, qaRows, contentRows, contactRows, loads).state;
      (k in r <==> k in m) && (k in m ==> r[k] == m[k])
  {
    if sessionRows != [] {
      LoadKeysCleared(k);
      var cleared := Without(m, Members(ClearKeys));
      var withQuestions := Header(cleared, session, sessionRows[0])["questions" := VList(QuestionsOf(qaRows))];
      RestoreContentOthers(withQuestions, contentRows, loads, k);
    }
  }

  // ----- get_saved_sessions -----

  /** The content types the listing labels, and their labels. */
  const ContentKinds: seq<string> := [
    "business_case", "roadmap", "competitive_strategy", "value_hypothesis", "outreach_emails", "linkedin_messages"]
  const ContentLabels: seq<string> := [
    "\U{1F4BC} Business Case", "\U{1F5FA}\U{FE0F} Roadmap", "\U{2694}\U{FE0F} Competitive",
    "\U{1F4A1} Value Hypothesis", "\U{1F4E7} Outreach", "\U{1F4AC} LinkedIn"]

  /** `content_map.get(item)`: the label of a known content type. */
  function Label(item: Value): (r: Option<string>)
    ensures r.Some? <==> item.VStr? && item.s in ContentKinds
    ensures r.Some? ==> r.value in ContentLabels
  {
    if item.VStr? && item.s in ContentKinds then
      var k :| 0 <= k < |ContentKinds| && ContentKinds[k] == item.s;
      Some(ContentLabels[k])
    else None
  }

  /** `[content_map.get(item, item) for item in items if item in content_map]` */
  function Labels(items: seq<Value>): seq<string> {
    if items == [] then []
    else Labels(items[..|items| - 1]) + (match Label(items[|items| - 1]) case Some(l) => [l] case None => [])
  }

  /** Every label is a known one; there are at most as many labels as items, and exactly
      as many when every item is a known type. */
  lemma {:induction false} LabelsSpec(items: seq<Value>)
    ensures forall j :: 0 <= j < |Labels(items)| ==> Labels(items)[j] in ContentLabels
    ensures |Labels(items)| <= |items|
    ensures (forall i :: 0 <= i < |items| ==> Label(items[i]).Some?) ==> |Labels(items)| == |items|
    decreases |items|
  {
    if items != [] {
      LabelsSpec(items[..|items| - 1]);
    }
  }

  /** Labelling keeps the order of the items: labelling a concatenation concatenates the
      labels. */
  lemma {:induction false} LabelsAppend(xs: seq<Value>, ys: seq<Value>)
    ensures Labels(xs + ys) == Labels(xs) + Labels(ys)
    decreases |ys|
  {
    if ys == [] {
      assert xs + ys == xs;
    } else {
      assert (xs + ys)[..|xs + ys| - 1] == xs + ys[..|ys| - 1];
      LabelsAppend(xs, ys[..|ys| - 1]);
    }
  }

  /** An item `in content_map` raises unless it is hashable. */
  predicate Hashable(item: Value) {
    !item.VList? && !item.VDict?
  }

  /** The labels of a listing's `available_content`: parsed when it is a string; a list
      is filtered, a dictionary's keys are; anything else, a parse error or an unhashable
      item gives no labels. A string is iterated as one-character items, none of them a
      known type. */
  function AvailableLabels(cell: Value, loads: string -> Option<Value>): seq<string> {
    if !Truthy(cell) then []
    else match Parsed(cell, loads)
      case Some(VList(items)) =>
        if forall i :: 0 <= i < |items| ==> Hashable(items[i]) then Labels(items) else []
      case Some(VDict(entries)) =>
        Labels(seq(|entries|, i requires 0 <= i < |entries| => VStr(entries[i].0)))
      case _ => []
  }

  /** Every label a listing shows is a known one. */
  lemma AvailableLabelsBound(cell: Value, loads: string -> Option<Value>)
    ensures forall j :: 0 <= j < |AvailableLabels(cell, loads)| ==> AvailableLabels(cell, loads)[j] in ContentLabels
  {
    if Truthy(cell) {
      match Parsed(cell, loads)
      case Some(VList(items)) => LabelsSpec(items);
      case Some(VDict(entries)) => LabelsSpec(seq(|entries|, i requires 0 <= i < |entries| => VStr(entries[i].0)));
      case _ =>
    }
  }

  /** A stored list of known content types shows one label per type. */
  lemma ListedLabels(kinds: seq<nat>, loads: string -> Option<Value>)
    requires forall i :: 0 <= i < |kinds| ==> kinds[i] < |ContentKinds|
    ensures var items := seq(|kinds|, i requires 0 <= i < |kinds| => VStr(ContentKinds[kinds[i]]));
      |AvailableLabels(VList(items), loads)| == |kinds|
  {
    var items := seq(|kinds|, i requires 0 <= i < |kinds| => VStr(ContentKinds[kinds[i]]));
    assert forall i :: 0 <= i < |items| ==> Label(items[i]).Some? by {
      forall i | 0 <= i < |items| ensures items[i].s in ContentKinds {
        assert items[i].s == ContentKinds[kinds[i]];
      }
    }
    LabelsSpec(items);
  }

  /** A row of the `session_progress` view. */
  datatype ProgressRow = ProgressRow(
    sessionId: Value, sessionName: Value, companyName: Value, companyWebsite: Value, competitor: Value,
    contactName: Value, contactTitle: Value, updatedAt: Value, totalQuestions: Value, answeredQuestions: Value,
    completionPercentage: Value, contentTypesCount: Value, availableContent: Value, contactsCount: Value)

  /** `int(v)`: an integer, a boolean as 0 or 1, or a string of decimal digits; `None` for
      anything it raises on (`None`, a list, a dictionary, other text). */
  function Number(v: Value): (r: Option<int>)
    ensures v.VInt? ==> r == Some(v.i)
    ensures v.VNone? || v.VList? || v.VDict? ==> r.None?
  {
    match v
    case VInt(i) => Some(i)
    case VBool(b) => Some(if b then 1 else 0)
    case VStr(s) => ParseInt(s)
    case _ => None
  }

  /** `float(v)`: an integer or boolean as a real, or a string in decimal notation; `None`
      for anything it raises on. */
  function Decimal(v: Value): (r: Option<real>)
    ensures Number(v).Some? ==> r == Some(Number(v).value as real)
    ensures v.VNone? || v.VList? || v.VDict? ==> r.None?
  {
    match v
    case VInt(i) => Some(i as real)
    case VBool(b) => Some(if b then 1.0 else 0.0)
    case VStr(s) => ParseDecimalExtendsInt(s); ParseDecimal(s)
    case _ => None
  }

  /** A count stored as a number or as the text `str` prints for it converts back to it. */
  lemma NumberOfPrinted(v: Value, n: int)
    requires v == VInt(n) || v == VStr(IntToString(n))
    ensures Number(v) == Some(n) && Decimal(v) == Some(n as real)
  {
    ParseIntOfPrinted(n);
  }

  /** The five counts of a progress row, when they all convert; the completion percentage
      is a `float`. */
  datatype Counts = Counts(total: int, answered: int, completion: real, content: int, contacts: int)

  function CountsOf(row: ProgressRow): (r: Option<Counts>)
    ensures r.Some? <==> (Number(row.totalQuestions).Some? && Number(row.answeredQuestions).Some?
      && Decimal(row.completionPercentage).Some? && Number(row.contentTypesCount).Some?
      && Number(row.contactsCount).Some?)
  {
    var total := Number(row.totalQuestions);
    var answered := Number(row.answeredQuestions);
    var completion := Decimal(row.completionPercentage);
    var content := Number(row.contentTypesCount);
    var contacts := Number(row.contactsCount);
    if total.None? || answered.None? || completion.None? || content.None? || contacts.None? then None
    else Some(Counts(total.value, answered.value, completion.value, content.value, contacts.value))
  }

  /** A row whose counts are numbers, or the text printed for them, lists exactly those
      counts. */
  lemma CountsOfPrinted(row: ProgressRow, total: int, answered: int, completion: int, content: int, contacts: int)
    requires row.totalQuestions == VInt(total) || row.totalQuestions == VStr(IntToString(total))
    requires row.answeredQuestions == VInt(answered) || row.answeredQuestions == VStr(IntToString(answered))
    requires row.completionPercentage == VInt(completion) || row.completionPercentage == VStr(IntToString(completion))
    requires row.contentTypesCount == VInt(content) || row.contentTypesCount == VStr(IntToString(content))
    requires row.contactsCount == VInt(contacts) || row.contactsCount == VStr(IntToString(contacts))
    ensures CountsOf(row) == Some(Counts(total, answered, completion as real, content, contacts))
  {
    NumberOfPrinted(row.totalQuestions, total);
    NumberOfPrinted(row.answeredQuestions, answered);
    NumberOfPrinted(row.completionPercentage, completion);
    NumberOfPrinted(row.contentTypesCount, content);
    NumberOfPrinted(row.contactsCount, contacts);
  }

  /** One enhanced listing row. */
  datatype Listing = Listing(
    id: Value, name: Value, company: Value, website: Value, competitor: Value,
    contactName: Value, contactTitle: Value, updated: Value, counts: Counts,
    labels: seq<string>, hasContent: bool)

  /** The listing for one row of the progress view; `None` when a count does not convert. */
  function ListingOf(row: ProgressRow, loads: string -> Option<Value>): (r: Option<Listing>)
    ensures r.Some? <==> CountsOf(row).Some?
    ensures r.Some? ==> (r.value.hasContent <==> r.value.counts.content > 0)
    ensures r.Some? ==> r.value.id == row.sessionId
    ensures r.Some? ==> forall j :: 0 <= j < |r.value.labels| ==> r.value.labels[j] in ContentLabels
  {
    match CountsOf(row)
    case None => None
    case Some(counts) =>
      var labels := AvailableLabels(row.availableContent, loads);
      AvailableLabelsBound(row.availableContent, loads);
      Some(Listing(
        row.sessionId, row.sessionName, row.companyName, row.companyWebsite, row.competitor,
        row.contactName, row.contactTitle, row.updatedAt, counts, labels, counts.content > 0))
  }

  /** The listing: one enhanced row per session row in order, or none at all when some
      row's counts do not convert (the exception empties the result). */
  method GetSavedSessions(rows: seq<ProgressRow>, loads: string -> Option<Value>) returns (listings: seq<Listing>)
    ensures (forall i :: 0 <= i < |rows| ==> CountsOf(rows[i]).Some?) ==>
      (|listings| == |rows| && forall i :: 0 <= i < |rows| ==> Some(listings[i]) == ListingOf(rows[i], loads))
    ensures (exists i :: 0 <= i < |rows| && CountsOf(rows[i]).None?) ==> listings == []
  {
    listings := [];
    for i := 0 to |rows|
      invariant |listings| == i
      invariant forall j :: 0 <= j < i ==> ListingOf(rows[j], loads) == Some(listings[j])
    {
      var listing := ListingOf(rows[i], loads);
      if listing.None? {
        assert CountsOf(rows[i]).None?;
        return [];
      }
      ghost var before := listings;
      listings := listings + [listing.value];
      assert forall j :: 0 <= j < i ==> listings[j] == before[j];
    }
  }

  // ----- start_new_session -----

  /** What `start_new_session` does: the store afterwards, the writes of the save it made,
      whether the "saved" message is shown, and whether it returns `True`. */
  datatype StartingV2 = StartingV2(state: map<string, Value>, writes: seq<Write>, reported: bool, ok: bool)

  /** `company_info.get('website')` raises unless `company_info` is a dictionary; a truthy
      website or truthy questions make the session worth saving; the save's own `False`
      is not looked at; then `clear_session_data` runs. */
  function Start(m: map<string, Value>, newId: string, date: string, show: Value -> string): StartingV2 {
    var info := GetOr(m, "company_info", VDict([]));
    if !info.VDict? then StartingV2(m, [], false, false)
    else
      var worth := Truthy(Get(info, "website", VNone)) || Truthy(GetOr(m, "questions", VNone));
      var saving := if worth then Save(m, newId, date, show) else SavingV2(m, Stage([], true));
      StartingV2(Without(saving.state, Members(ClearKeys)), saving.stage.writes, worth, true)
  }

  /** Saves a session worth saving, then clears the session's keys. The closing
      `st.rerun()` hands control back to the page, which is not part of this model. */
  method StartNewSession(s: Session, newId: string, date: string, show: Value -> string)
    returns (started: bool, writes: seq<Write>, reported: bool)
    modifies s
    ensures Start(old(s.state), newId, date, show) == StartingV2(s.state, writes, reported, started)
  {
    var info := GetOr(s.state, "company_info", VDict([]));
    if !info.VDict? {
      return false, [], false;
    }
    writes, reported := [], false;
    if Truthy(Get(info, "website", VNone)) || Truthy(GetOr(s.state, "questions", VNone)) {
      var saved;
      saved, writes := SaveCurrentSession(s, newId, date, show);
      reported := true;
    }
    var cleared := ClearSessionData(s);
    started := true;
  }

  /** The session id and the questions are among the keys clearing removes. */
  lemma ClearKeysListed()
    ensures "current_session_id" in Members(ClearKeys) && "questions" in Members(ClearKeys)
  {
    assert ClearKeys[0] == "questions" && ClearKeys[3] == "current_session_id";
  }

  /** A fresh start holds none of the cleared keys and keeps every other key and its value;
      a `company_info` that is not a dictionary leaves the store as it was. */
  lemma StartKeepsOthers(m: map<string, Value>, newId: string, date: string, show: Value -> string)
    ensures var r := Start(m, newId, date, show);
      r.ok <==> GetOr(m, "company_info", VDict([])).VDict?
    ensures var r := Start(m, newId, date, show);
      !r.ok ==> r.state == m && r.writes == []
    ensures var r := Start(m, newId, date, show);
      r.ok ==> r.state == Without(m, Members(ClearKeys))
  {
    var info := GetOr(m, "company_info", VDict([]));
    if info.VDict? && (Truthy(Get(info, "website", VNone)) || Truthy(GetOr(m, "questions", VNone))) {
      var saved := Save(m, newId, date, show).state;
      assert saved == m || saved == m["current_session_id" := VStr(newId)];
      ClearKeysListed();
      SessionManagement.WithoutUpdate(m, "current_session_id", VStr(newId), Members(ClearKeys));
    }
  }

  /** Questions without a company are not saved, yet the "saved" message is shown and the
      questions are removed. */
  lemma StartDropsQuestionsWithoutCompany(m: map<string, Value>, newId: string, date: string, show: Value -> string)
    requires GetOr(m, "company_info", VDict([])) == VDict([])
    requires Truthy(GetOr(m, "questions", VNone))
    ensures var r := Start(m, newId, date, show);
      r.ok && r.reported && r.writes == [] && "questions" !in r.state
  {
    ClearKeysListed();
  }

  // ----- delete_session -----

  /** The tables of the normalised schema. */
  datatype Table = Sessions | Questions | Answers | Content | Contacts

  /** The table a statement writes to. */
  function TableOf(w: Write): Table {
    match w
    case MergeSession(_, _, _, _, _, _, _, _) => Sessions
    case DeleteSessionRow(_) => Sessions
    case DeleteQuestions(_) => Questions
    case InsertQuestion(_, _, _, _, _, _, _) => Questions
    case DeleteAnswers(_) => Answers
    case InsertAnswer(_, _, _, _, _) => Answers
    case DeleteContent(_) => Content
    case InsertContentData(_, _, _, _) => Content
    case InsertContentText(_, _, _, _) => Content
    case DeleteContacts(_) => Contacts
    case InsertContact(_, _, _, _, _, _, _) => Contacts
  }

  /** The tables the statements write to. */
  function Tables(ws: seq<Write>): set<Table> {
    set i | 0 <= i < |ws| :: TableOf(ws[i])
  }

  predicate IsDelete(w: Write) {
    w.DeleteSessionRow? || w.DeleteQuestions? || w.DeleteAnswers? || w.DeleteContent? || w.DeleteContacts?
  }

  /** `delete_session(session_id)`: the rows of the session in every table, the session row
      last, after the rows that refer to it. `execute_query` reports a failure as an empty
      result rather than raising, so the function always returns `True`. */
  function DeleteSession(session: string): (ws: seq<Write>)
    ensures forall i :: 0 <= i < |ws| ==> IsDelete(ws[i]) && ws[i].session == session
    ensures |ws| > 0 && ws[|ws| - 1].DeleteSessionRow?
    ensures forall i :: 0 <= i < |ws| - 1 ==> TableOf(ws[i]) != Sessions
    ensures forall t: Table :: t in Tables(ws)
  {
    var ws := [DeleteAnswers(session), DeleteQuestions(session), DeleteContent(session),
               DeleteContacts(session), DeleteSessionRow(session)];
    assert TableOf(ws[0]) == Answers && TableOf(ws[1]) == Questions && TableOf(ws[2]) == Content;
    assert TableOf(ws[3]) == Contacts && TableOf(ws[4]) == Sessions;
    assert forall t: Table :: t in Tables(ws) by {
      forall t: Table ensures t in Tables(ws) {
        assert t.Answers? || t.Questions? || t.Content? || t.Contacts? || t.Sessions?;
      }
    }
    ws
  }

  /** Every row a save writes is in a table the delete of its session clears, so deleting a
      session leaves none of its rows. */
  lemma DeleteCoversSave(m: map<string, Value>, newId: string, date: string, show: Value -> string, w: Write)
    requires w in Save(m, newId, date, show).stage.writes
    ensures exists d :: d in DeleteSession(w.session) && TableOf(d) == TableOf(w) && d.session == w.session
  {
    var ws := DeleteSession(w.session);
    assert TableOf(w) in Tables(ws);
    var i :| 0 <= i < |ws| && TableOf(ws[i]) == TableOf(w);
    assert ws[i] in ws;
  }
}
