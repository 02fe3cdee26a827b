/** `modules/sales_functions.py`: the sales workflow helpers. Each reads and updates the
    shared session store; the completion calls they make are given as their replies. */
module Sales {
  import opened Text
  import opened Values
  import opened SessionStore
  import opened Questions
  import Autofill
  import LlmPost

  // ----- prepare_discovery_notes -----

  /** The answered questions of `xs`, in order: `[q for q in xs if q.get('answer', '').strip()]`. */
  function Answers(xs: seq<Value>): (r: seq<Value>)
    ensures |r| <= |xs|
  {
    if xs == [] then [] else Answers(xs[..|xs| - 1]) + (if Answered(xs[|xs| - 1]) then [xs[|xs| - 1]] else [])
  }

  /** The answered questions are answered questions of `xs`, and there are none exactly
      when no question of `xs` is answered. */
  lemma {:induction false} AnswersSpec(xs: seq<Value>)
    ensures forall i :: 0 <= i < |Answers(xs)| ==> Answered(Answers(xs)[i]) && Answers(xs)[i] in xs
    ensures Answers(xs) == [] <==> forall i :: 0 <= i < |xs| ==> !Answered(xs[i])
    decreases |xs|
  {
    if xs != [] {
      var init := xs[..|xs| - 1];
      AnswersSpec(init);
      assert forall i :: 0 <= i < |init| ==> init[i] == xs[i];
    }
  }

  /** The filtering loop of the comprehension. */
  method AnswersOf(xs: seq<Value>) returns (answered: seq<Value>)
    ensures answered == Answers(xs)
  {
    answered := [];
    for i := 0 to |xs|
      invariant answered == Answers(xs[..i])
    {
      assert xs[..i + 1][..i] == xs[..i];
      if Answered(xs[i]) {
        answered := answered + [xs[i]];
      }
    }
    assert xs[..|xs|] == xs;
  }

  /** The lines one answered question contributes: its text through `str`, its answer,
      and an empty line. */
  function QaLines(q: Value, show: Value -> string): seq<string> {
    ["Q: " + PyStr(Get(q, "text", VNone), show), "A: " + AsStr(Get(q, "answer", VStr(""))), ""]
  }

  /** The lines of the answered questions `qs`, three per question, in order. */
  function QaBlock(qs: seq<Value>, show: Value -> string): (r: seq<string>)
    ensures |r| == 3 * |qs|
  {
    if qs == [] then [] else QaBlock(qs[..|qs| - 1], show) + QaLines(qs[|qs| - 1], show)
  }

  /** The header line of a category, which the second character marks as one. */
  function Header(category: string): (h: string)
    ensures IsHeader(h)
  {
    var h := "\n=== " + category + " ===";
    assert h[1] == '=';
    h
  }

  predicate IsHeader(line: string) {
    |line| > 1 && line[1] == '='
  }

  /** A question the rendering can read: a dictionary whose answer, when present, is a
      string, and which has a `text` when it is answered (`q['text']` is read). */
  predicate NoteQuestion(q: Value) {
    q.VDict? && StrOrAbsent(q, "answer") && (Answered(q) ==> HasKey(q.entries, "text"))
  }

  /** A category value the rendering can read: falsy, or a list of readable questions. */
  predicate NoteList(v: Value) {
    Truthy(v) ==> v.VList? && forall i :: 0 <= i < |v.items| ==> NoteQuestion(v.items[i])
  }

  /** An item of a list input: non-dictionaries are skipped; a dictionary's `category`
      and `text`, when present, are strings (`.lower()` is called on them). */
  predicate ListedQuestion(q: Value) {
    q.VDict? ==> StrOrAbsent(q, "category") && StrOrAbsent(q, "text") && NoteQuestion(q)
  }

  /** What `questions` must be for the function not to raise: a list of listed questions,
      or a dictionary of readable category values. */
  predicate NotesInput(questions: Value) {
    (questions.VList? && forall i :: 0 <= i < |questions.items| ==> ListedQuestion(questions.items[i]))
    || (questions.VDict? && forall c :: 0 <= c < |questions.entries| ==> NoteList(questions.entries[c].1))
  }

  /** The categories rendered: a list is grouped into Technical, Business and Competitive
      by the shared keyword classification; a dictionary is taken as it is. */
  function NotesCategories(questions: Value, show: Value -> string): seq<(string, Value)>
    requires questions.VList? || questions.VDict?
  {
    if questions.VList? then Grouped(questions.items, show) else questions.entries
  }

  predicate NoteLists(cats: seq<(string, Value)>) {
    forall c :: 0 <= c < |cats| ==> NoteList(cats[c].1)
  }

  /** The lines of one category: nothing unless it holds an answered question, and then
      its header followed by the lines of its answered questions. */
  function Section(category: string, v: Value, show: Value -> string): (r: seq<string>)
    ensures r != [] ==> IsHeader(r[0])
  {
    if !Truthy(v) || !v.VList? then []
    else
      var answered := Answers(v.items);
      if answered == [] then [] else [Header(category)] + QaBlock(answered, show)
  }

  /** The lines of the first n categories; a non-empty result starts with a header. */
  function NotesParts(cats: seq<(string, Value)>, show: Value -> string, n: nat): (r: seq<string>)
    requires n <= |cats|
    ensures r != [] ==> IsHeader(r[0])
  {
    if n == 0 then []
    else NotesParts(cats, show, n - 1) + Section(cats[n - 1].0, cats[n - 1].1, show)
  }

  /** `prepare_discovery_notes(questions)`: the category lines joined by newlines. */
  function DiscoveryNotes(questions: Value, show: Value -> string): string
    requires questions.VList? || questions.VDict?
  {
    var cats := NotesCategories(questions, show);
    Join(NotesParts(cats, show, |cats|), "\n")
  }

  lemma {:induction false} InBucketListed(qs: seq<Value>, b: Bucket, bucket: Value -> Bucket, n: nat)
    requires n <= |qs| && forall i :: 0 <= i < |qs| ==> ListedQuestion(qs[i])
    ensures forall i :: 0 <= i < |InBucket(qs, b, bucket, n)| ==> NoteQuestion(InBucket(qs, b, bucket, n)[i])
  {
    if n > 0 {
      InBucketListed(qs, b, bucket, n - 1);
    }
  }

  /** Every category of a valid input is readable. */
  lemma CategoriesNoteLists(questions: Value, show: Value -> string)
    requires NotesInput(questions)
    ensures NoteLists(NotesCategories(questions, show))
  {
    if questions.VList? {
      var qs := questions.items;
      InBucketListed(qs, Technical, Classifier(show), |qs|);
      InBucketListed(qs, Business, Classifier(show), |qs|);
      InBucketListed(qs, Competitive, Classifier(show), |qs|);
    }
  }

  /** The loop over the categories of `prepare_discovery_notes`. */
  method PrepareDiscoveryNotes(questions: Value, show: Value -> string) returns (notes: string)
    requires NotesInput(questions)
    ensures notes == DiscoveryNotes(questions, show)
  {
    CategoriesNoteLists(questions, show);
    var cats: seq<(string, Value)>;
    if questions.VList? {
      cats := Categorize(questions.items, show);
    } else {
      cats := questions.entries;
    }
    assert cats == NotesCategories(questions, show);
    var parts: seq<string> := [];
    for c := 0 to |cats|
      invariant parts == NotesParts(cats, show, c)
    {
      var lines := SectionLines(cats[c].0, cats[c].1, show);
      parts := parts + lines;
    }
    notes := Join(parts, "\n");
  }

  /** The lines one category adds: its answered questions are collected, and when there
      are any, the header and each question's lines are appended. */
  method SectionLines(category: string, list: Value, show: Value -> string) returns (lines: seq<string>)
    requires NoteList(list)
    ensures lines == Section(category, list, show)
  {
    lines := [];
    if Truthy(list) {
      var answered := AnswersOf(list.items);
      if answered != [] {
        var block := QaBlockOf(answered, show);
        lines := [Header(category)] + block;
      }
    }
  }

  /** The loop appending each answered question's lines. */
  method QaBlockOf(answered: seq<Value>, show: Value -> string) returns (lines: seq<string>)
    ensures lines == QaBlock(answered, show)
  {
    lines := [];
    for i := 0 to |answered|
      invariant lines == QaBlock(answered[..i], show)
    {
      QaBlockSnoc(answered, i, show);
      lines := lines + QaLines(answered[i], show);
    }
    assert answered[..|answered|] == answered;
  }

  lemma QaBlockSnoc(qs: seq<Value>, i: nat, show: Value -> string)
    requires i < |qs|
    ensures QaBlock(qs[..i + 1], show) == QaBlock(qs[..i], show) + QaLines(qs[i], show)
  {
    assert qs[..i + 1][..i] == qs[..i];
  }

  /** A join begins with its first part. */
  lemma JoinStartsWithFirst(parts: seq<string>, sep: string)
    requires parts != []
    ensures parts[0] <= Join(parts, sep)
  {
  }

  /** No question of the category value is answered. */
  predicate Unanswered(v: Value) {
    forall i :: 0 <= i < |AsList(v)| ==> !Answered(AsList(v)[i])
  }

  lemma SectionEmpty(category: string, v: Value, show: Value -> string)
    ensures |Section(category, v, show)| == 0 <==> |Answers(AsList(v))| == 0
  {
    if Truthy(v) && v.VList? {
      var a := Answers(v.items);
      if a != [] {
        assert Section(category, v, show) == [Header(category)] + QaBlock(a, show);
      }
    } else if v.VList? {
      assert AsList(v) == [];
    }
  }

  /** None of the first n categories holds an answered question. */
  predicate NoneAnswered(cats: seq<(string, Value)>, n: nat)
    requires n <= |cats|
  {
    n == 0 || (NoneAnswered(cats, n - 1) && |Answers(AsList(cats[n - 1].1))| == 0)
  }

  /** The first n categories give no lines exactly when none holds an answered question. */
  lemma {:induction false} NotesPartsEmpty(cats: seq<(string, Value)>, show: Value -> string, n: nat)
    requires n <= |cats|
    ensures |NotesParts(cats, show, n)| == 0 <==> NoneAnswered(cats, n)
  {
    if n > 0 {
      NotesPartsEmpty(cats, show, n - 1);
      SectionEmpty(cats[n - 1].0, cats[n - 1].1, show);
    }
  }

  lemma {:induction false} NoneAnsweredIff(cats: seq<(string, Value)>, n: nat)
    requires n <= |cats|
    ensures NoneAnswered(cats, n) <==> forall c :: 0 <= c < n ==> Unanswered(cats[c].1)
  {
    if n > 0 {
      NoneAnsweredIff(cats, n - 1);
      AnswersSpec(AsList(cats[n - 1].1));
    }
  }

  /** The notes are blank (the callers' "answer some questions first" test) exactly when
      no category holds an answered question. */
  lemma NotesBlankIff(questions: Value, show: Value -> string)
    requires questions.VList? || questions.VDict?
    ensures var cats := NotesCategories(questions, show);
      IsBlank(DiscoveryNotes(questions, show)) <==> forall c :: 0 <= c < |cats| ==> Unanswered(cats[c].1)
  {
    var cats := NotesCategories(questions, show);
    var parts := NotesParts(cats, show, |cats|);
    NotesPartsEmpty(cats, show, |cats|);
    NoneAnsweredIff(cats, |cats|);
    if parts != [] {
      HeaderNotBlank(parts);
    }
  }

  /** Lines that start with a category header never join into blank notes. */
  lemma HeaderNotBlank(parts: seq<string>)
    requires parts != [] && IsHeader(parts[0])
    ensures !IsBlank(Join(parts, "\n"))
  {
    JoinStartsWithFirst(parts, "\n");
    var notes := Join(parts, "\n");
    assert notes[1] == parts[0][1];
  }

  lemma {:induction false} InBucketFrom(qs: seq<Value>, b: Bucket, bucket: Value -> Bucket, n: nat)
    requires n <= |qs|
    ensures forall x :: x in InBucket(qs, b, bucket, n) ==> x in qs
  {
    if n > 0 {
      InBucketFrom(qs, b, bucket, n - 1);
    }
  }

  lemma {:induction false} InBucketHas(qs: seq<Value>, bucket: Value -> Bucket, n: nat, i: nat)
    requires i < n <= |qs| && qs[i].VDict?
    ensures qs[i] in InBucket(qs, bucket(qs[i]), bucket, n)
  {
    if i < n - 1 {
      InBucketHas(qs, bucket, n - 1, i);
    }
  }

  /** For a list of questions the notes are blank exactly when no question of the list is
      answered: the grouping loses no dictionary and invents none. */
  lemma ListNotesBlankIff(qs: seq<Value>, show: Value -> string)
    ensures IsBlank(DiscoveryNotes(VList(qs), show)) <==> forall i :: 0 <= i < |qs| ==> !Answered(qs[i])
  {
    NotesBlankIff(VList(qs), show);
    GroupsUnanswered(qs, show);
  }

  lemma GroupsUnanswered(qs: seq<Value>, show: Value -> string)
    ensures var cats := Grouped(qs, show);
      (forall i :: 0 <= i < |qs| ==> !Answered(qs[i])) <==> forall c :: 0 <= c < |cats| ==> Unanswered(cats[c].1)
  {
    if forall i :: 0 <= i < |qs| ==> !Answered(qs[i]) {
      forall c | 0 <= c < 3 ensures Unanswered(Grouped(qs, show)[c].1) {
        var b := [Technical, Business, Competitive][c];
        assert AsList(Grouped(qs, show)[c].1) == InBucket(qs, b, Classifier(show), |qs|);
        InBucketFrom(qs, b, Classifier(show), |qs|);
        NoneFrom(InBucket(qs, b, Classifier(show), |qs|), qs);
      }
    } else {
      var i :| 0 <= i < |qs| && Answered(qs[i]);
      GroupHoldsAnswered(qs, show, i);
    }
  }

  lemma GroupHoldsAnswered(qs: seq<Value>, show: Value -> string, i: nat)
    requires i < |qs| && Answered(qs[i])
    ensures exists c :: 0 <= c < 3 && !Unanswered(Grouped(qs, show)[c].1)
  {
    var bucket := Classifier(show);
    var b := bucket(qs[i]);
    InBucketHas(qs, bucket, |qs|, i);
    var c := Autofill.BucketIndex(b);
    assert AsList(Grouped(qs, show)[c].1) == InBucket(qs, b, bucket, |qs|);
    SomeIn(InBucket(qs, b, bucket, |qs|), qs[i]);
  }

  lemma NoneFrom(xs: seq<Value>, qs: seq<Value>)
    requires forall x :: x in xs ==> x in qs
    requires forall i :: 0 <= i < |qs| ==> !Answered(qs[i])
    ensures Unanswered(VList(xs))
  {
    forall j | 0 <= j < |xs| ensures !Answered(xs[j]) {
      assert xs[j] in qs;
    }
  }

  lemma SomeIn(xs: seq<Value>, x: Value)
    requires x in xs && Answered(x)
    ensures !Unanswered(VList(xs))
  {
    var j :| 0 <= j < |xs| && xs[j] == x;
    assert AsList(VList(xs))[j] == x;
  }

  // ----- perform_people_research -----

  /** `person['name']` of a researched person, as a string. */
  function NameOf(person: Value): string {
    AsStr(Get(person, "name", VNone))
  }

  /** The names agree once lower-cased: the test the research list is searched by. */
  predicate SameName(person: Value, name: string) {
    Lower(NameOf(person)) == Lower(name)
  }

  /** The first position from `from` on whose person has the name, or -1. */
  function FirstNamed(people: seq<Value>, name: string, from: nat): (r: int)
    requires from <= |people|
    ensures r == -1 || (from <= r < |people| && SameName(people[r], name))
    ensures forall j :: from <= j < |people| && (r == -1 || j < r) ==> !SameName(people[j], name)
    decreases |people| - from
  {
    if from == |people| then -1
    else if SameName(people[from], name) then from
    else FirstNamed(people, name, from + 1)
  }

  /** A person the search can read: a dictionary with a string `name`. */
  predicate Named(person: Value) {
    person.VDict? && Lookup(person, "name").Some? && Lookup(person, "name").value.VStr?
  }

  /** The search reads every person up to the first match, or all of them. */
  predicate Searchable(people: seq<Value>, name: string) {
    var f := FirstNamed(people, name, 0);
    forall j :: 0 <= j < |people| && (f == -1 || j <= f) ==> Named(people[j])
  }

  /** The record stored for a researched person; `date` stands for the current time. */
  function PersonData(name: string, title: string, research: Value, date: string): (p: Value)
    requires research.VDict?
    ensures Named(p) && NameOf(p) == name
  {
    VDict([("name", VStr(name)), ("title", VStr(title)),
           ("summary", Get(research, "summary", VStr(""))),
           ("insights", Get(research, "insights", VList([]))),
           ("topics", Get(research, "topics", VDict([]))),
           ("research_date", VStr(date))])
  }

  /** The research list with `person` in place of the first person of that name, or
      appended when there is none. */
  function Upserted(people: seq<Value>, name: string, person: Value): seq<Value> {
    var f := FirstNamed(people, name, 0);
    if f == -1 then people + [person] else people[f := person]
  }

  /** `perform_people_research(name, title)` given the research reply: nothing changes for
      a falsy reply; otherwise the record replaces the first person of the same name, or is
      appended, and is returned. */
  method PerformPeopleResearch(s: Session, name: string, title: string, research: Value, date: string)
    returns (person: Option<Value>)
    requires Truthy(research) ==> research.VDict?
    requires Truthy(research) && "people_research" in s.state ==>
      s.state["people_research"].VList? && Searchable(s.state["people_research"].items, name)
    modifies s
    ensures !Truthy(research) ==> person == None && s.state == old(s.state)
    ensures Truthy(research) ==> person == Some(PersonData(name, title, research, date))
    ensures Truthy(research) ==> s.state == old(s.state)["people_research" :=
      VList(Upserted(AsList(GetOr(old(s.state), "people_research", VList([]))), name, person.value))]
  {
    if !Truthy(research) {
      return None;
    }
    var data := PersonData(name, title, research, date);
    if "people_research" !in s.state {
      s.state := s.state["people_research" := VList([])];
    }
    var people := s.state["people_research"].items;
    var existing := FindPerson(people, name);
    if existing != -1 {
      people := people[existing := data];
    } else {
      people := people + [data];
    }
    s.state := s.state["people_research" := VList(people)];
    person := Some(data);
  }

  /** The search loop: the position of the first person of that name, or -1. */
  method FindPerson(people: seq<Value>, name: string) returns (existing: int)
    ensures existing == FirstNamed(people, name, 0)
  {
    existing := -1;
    var i := 0;
    while i < |people|
      invariant i <= |people| && existing == -1
      invariant FirstNamed(people, name, i) == FirstNamed(people, name, 0)
    {
      if Lower(NameOf(people[i])) == Lower(name) {
        existing := i;
        break;
      }
      i := i + 1;
    }
  }

  /** The list grows by at most one, and by one exactly when nobody had the name; the
      person is found under the name afterwards; everybody else keeps their place. */
  lemma UpsertedSpec(people: seq<Value>, name: string, person: Value)
    requires SameName(person, name)
    ensures var r, f := Upserted(people, name, person), FirstNamed(people, name, 0);
      (|r| == |people| + 1 <==> forall j :: 0 <= j < |people| ==> !SameName(people[j], name))
      && (|r| == |people| <==> exists j :: 0 <= j < |people| && SameName(people[j], name))
      && FirstNamed(r, name, 0) != -1 && r[FirstNamed(r, name, 0)] == person
      && forall j :: 0 <= j < |people| && j != f ==> r[j] == people[j]
  {
    var r, f := Upserted(people, name, person), FirstNamed(people, name, 0);
    if f == -1 {
      FirstNamedAt(r, name, |people|);
    } else {
      FirstNamedAt(r, name, f);
    }
  }

  lemma FirstNamedAt(people: seq<Value>, name: string, i: nat)
    requires i < |people| && SameName(people[i], name)
    requires forall j :: 0 <= j < i ==> !SameName(people[j], name)
    ensures FirstNamed(people, name, 0) == i
  {
  }

  /** Researching the same name twice keeps only the second record, in the first one's place. */
  lemma UpsertTwice(people: seq<Value>, name: string, first: Value, second: Value)
    requires SameName(first, name)
    ensures Upserted(Upserted(people, name, first), name, second) == Upserted(people, name, second)
  {
    var once, f := Upserted(people, name, first), FirstNamed(people, name, 0);
    if f == -1 {
      FirstNamedAt(once, name, |people|);
      assert once[|people| := second] == people + [second];
    } else {
      FirstNamedAt(once, name, f);
      assert once[f := second] == people[f := second];
    }
  }

  /** No two people share a name once lower-cased. */
  predicate DistinctNames(people: seq<Value>) {
    forall i, j :: 0 <= i < j < |people| ==> Lower(NameOf(people[i])) != Lower(NameOf(people[j]))
  }

  /** Starting from a list without repeated names, the list never gains one. */
  lemma UpsertKeepsNamesDistinct(people: seq<Value>, name: string, person: Value)
    requires DistinctNames(people) && SameName(person, name)
    ensures DistinctNames(Upserted(people, name, person))
  {
    var r, f := Upserted(people, name, person), FirstNamed(people, name, 0);
    forall i, j | 0 <= i < j < |r| ensures Lower(NameOf(r[i])) != Lower(NameOf(r[j])) {
      if f == -1 {
        if j == |people| {
          assert !SameName(people[i], name);
        }
      } else if i == f {
        assert Lower(NameOf(r[i])) == Lower(NameOf(people[f]));
      } else if j == f {
        assert Lower(NameOf(r[j])) == Lower(NameOf(people[f]));
      }
    }
  }

  // ----- add_new_questions_to_category, add_initiative_questions -----

  /** `company_info[k]` is read for each key: the company record is a dictionary holding them. */
  predicate CompanyHas(m: map<string, Value>, keys: seq<string>) {
    "company_info" in m && m["company_info"].VDict?
    && forall i :: 0 <= i < |keys| ==> HasKey(m["company_info"].entries, keys[i])
  }

  /** The question store is a dictionary whose `category`, when present, holds a list. */
  predicate Extendable(m: map<string, Value>, category: string) {
    "questions" in m && m["questions"].VDict?
    && (HasKey(m["questions"].entries, category) ==> Find(m["questions"].entries, category).value.VList?)
  }

  /** The questions of a category, none when the category is missing. */
  function CategoryList(entries: seq<(string, Value)>, category: string): seq<Value> {
    match Find(entries, category)
    case Some(v) => AsList(v)
    case None => []
  }

  /** The question store after `questions[category].extend(added)`, a missing category
      having been created empty first. */
  function Extended(entries: seq<(string, Value)>, category: string, added: seq<Value>): seq<(string, Value)> {
    SetKey(entries, category, VList(CategoryList(entries, category) + added))
  }

  /** Extending keeps the category's questions as they were, followed by the new ones;
      every other category keeps its value; a new category goes last; keys stay distinct. */
  lemma ExtendedSpec(entries: seq<(string, Value)>, category: string, added: seq<Value>)
    ensures var r := Extended(entries, category, added);
      Find(r, category) == Some(VList(CategoryList(entries, category) + added))
      && (forall other :: other != category ==> Find(r, other) == Find(entries, other))
      && (HasKey(entries, category) ==> Keys(r) == Keys(entries))
      && (!HasKey(entries, category) ==> Keys(r) == Keys(entries) + [category])
      && (UniqueKeys(entries) ==> UniqueKeys(r))
  {
    var x := VList(CategoryList(entries, category) + added);
    forall other | other != category ensures Find(Extended(entries, category, added), other) == Find(entries, other) {
      SetKeyOthers(entries, category, x, other);
    }
    if UniqueKeys(entries) {
      SetKeyUnique(entries, category, x);
    }
    var r := Extended(entries, category, added);
    if HasKey(entries, category) {
      var i := KeyIndex(entries, category);
      assert r == entries[i := (category, x)];
    }
  }

  /** The `if new_questions:` block shared by both callers: nothing happens for no
      questions; otherwise a missing category is created empty and then extended. */
  method ExtendCategory(s: Session, category: string, added: seq<Value>)
    requires Extendable(s.state, category)
    modifies s
    ensures added == [] ==> s.state == old(s.state)
    ensures added != [] ==>
      s.state == old(s.state)["questions" := VDict(Extended(old(s.state)["questions"].entries, category, added))]
  {
    if added != [] {
      var entries := s.state["questions"].entries;
      ghost var original := entries;
      if !HasKey(entries, category) {
        entries := SetKey(entries, category, VList([]));
        SetKeyTwice(original, category, VList([]), VList(added));
        assert [] + added == added;
      }
      var list := Find(entries, category).value.items;
      assert list == CategoryList(original, category);
      s.state := s.state["questions" := VDict(SetKey(entries, category, VList(list + added)))];
    }
  }

  /** Each question of the category is a dictionary with a `text` (`q['text']` is read). */
  predicate HasTexts(list: seq<Value>) {
    forall i :: 0 <= i < |list| ==> list[i].VDict? && HasKey(list[i].entries, "text")
  }

  /** `add_new_questions_to_category(category)` with the generator's questions passed as
      they are stored: the generated questions are appended to the category. */
  method AddNewQuestionsToCategory(s: Session, category: string, reply: Option<Value>,
                                   newId: nat -> string, base: nat)
    returns (added: seq<Value>)
    requires CompanyHas(s.state, ["website", "industry", "competitor", "persona"])
    requires Extendable(s.state, category)
    requires HasTexts(CategoryList(s.state["questions"].entries, category))
    requires reply.Some? && Truthy(reply.value) ==> LlmPost.Iterable(reply.value)
    modifies s
    ensures added == LlmPost.MoreQuestions(reply, newId, base)
    ensures added == [] ==> s.state == old(s.state)
    ensures added != [] ==>
      s.state == old(s.state)["questions" := VDict(Extended(old(s.state)["questions"].entries, category, added))]
  {
    added := LlmPost.MoreQuestions(reply, newId, base);
    ExtendCategory(s, category, added);
  }

  /** `[q['text'] for q in existing_questions]`: what the caller hands the generator. */
  function Texts(list: seq<Value>): (r: seq<Value>)
    ensures |r| == |list|
  {
    seq(|list|, i requires 0 <= i < |list| => Get(list[i], "text", VNone))
  }

  /** What the generator's own `[q['text'] for q in existing_questions]` can read without
      raising: dictionaries with a `text`. */
  predicate TextsReadable(existing: seq<Value>) {
    HasTexts(existing)
  }

  /** As written, `add_new_questions_to_category` hands the generator the question texts,
      and the generator indexes each with `'text'` again: a string text raises `TypeError`,
      so a category that already holds questions can never be extended. Only an empty or
      missing category gets questions. */
  method AddNewQuestionsAsWritten(s: Session, category: string, reply: Option<Value>,
                                  newId: nat -> string, base: nat)
    returns (raised: bool)
    requires CompanyHas(s.state, ["website", "industry", "competitor", "persona"])
    requires Extendable(s.state, category)
    requires HasTexts(CategoryList(s.state["questions"].entries, category))
    requires reply.Some? && Truthy(reply.value) ==> LlmPost.Iterable(reply.value)
    modifies s
    ensures (forall i :: 0 <= i < |CategoryList(old(s.state)["questions"].entries, category)| ==>
               Lookup(CategoryList(old(s.state)["questions"].entries, category)[i], "text").value.VStr?)
            ==> (raised <==> CategoryList(old(s.state)["questions"].entries, category) != [])
    ensures raised ==> s.state == old(s.state)
    ensures !raised ==> var added := LlmPost.MoreQuestions(reply, newId, base);
      (added == [] ==> s.state == old(s.state))
      && (added != [] ==>
        s.state == old(s.state)["questions" := VDict(Extended(old(s.state)["questions"].entries, category, added))])
  {
    var list := CategoryList(s.state["questions"].entries, category);
    var existing := Texts(list);
    raised := !TextsReadable(existing);
    if list != [] && Lookup(list[0], "text").value.VStr? {
      assert existing[0] == Lookup(list[0], "text").value;
    }
    if !raised {
      ExtendCategory(s, category, LlmPost.MoreQuestions(reply, newId, base));
    }
  }

  /** `generate_initiative_questions` declares five parameters; its caller passes four. */
  const InitiativeParameters: nat := 5
  const InitiativeArguments: nat := 4

  /** As written, `add_initiative_questions` raises `TypeError` at the call on every input
      and changes nothing. */
  method AddInitiativeQuestionsAsWritten(s: Session, initiative: string) returns (raised: bool)
    ensures raised
    ensures s.state == old(s.state)
  {
    raised := InitiativeArguments != InitiativeParameters;
  }

  /** `add_initiative_questions(initiative)` with the missing description argument
      supplied: the questions picked out of the reply are appended to the initiative's
      category, created when missing. */
  method AddInitiativeQuestions(s: Session, initiative: string, reply: Option<Value>)
    returns (added: seq<Value>)
    requires CompanyHas(s.state, ["website", "industry", "persona"])
    requires Extendable(s.state, initiative)
    requires LlmPost.SelectableReply(reply)
    modifies s
    ensures added == LlmPost.Items(LlmPost.SelectQuestions(reply))
    ensures |added| <= 5 || LlmPost.SelectQuestions(reply).VStr?
    ensures added == [] ==> s.state == old(s.state)
    ensures added != [] ==>
      s.state == old(s.state)["questions" := VDict(Extended(old(s.state)["questions"].entries, initiative, added))]
  {
    var selected := LlmPost.SelectQuestions(reply);
    added := LlmPost.Items(selected);
    ExtendCategory(s, initiative, added);
  }
}

