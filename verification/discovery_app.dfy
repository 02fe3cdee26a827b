/** `discovery_app_streamlit.py`: the single-page discovery app. Its callbacks toggle,
    delete and clear questions in the session store, a loop copies answer widgets back
    into the questions, and two generators turn a completion reply into question lists.
    The page layout, the prompts and the chat tab are not modelled. */
module DiscoveryApp {
  import opened Text
  import opened Values
  import opened SessionStore
  import Completion
  import LlmPost

  // ----- The question store -----

  /** `question['id'] == q_id` */
  predicate IsId(q: Value, id: string) {
    q.VDict? && Find(q.entries, "id") == Some(VStr(id))
  }

  /** A question as the callbacks read it: a dictionary with a string id and a
      favourite mark. */
  predicate WellFormedQuestion(q: Value) {
    q.VDict? && Find(q.entries, "id").Some? && Find(q.entries, "id").value.VStr?
    && Find(q.entries, "favorite").Some?
  }

  function IdOf(q: Value): string
    requires WellFormedQuestion(q)
  {
    Find(q.entries, "id").value.s
  }

  /** A category holds a list of well-formed questions. */
  predicate CategoryOk(v: Value) {
    v.VList? && forall i :: 0 <= i < |v.items| ==> WellFormedQuestion(v.items[i])
  }

  /** A question dictionary: distinct category names, each holding a question list. */
  predicate CategoriesOk(cats: seq<(string, Value)>) {
    UniqueKeys(cats) && forall c :: 0 <= c < |cats| ==> CategoryOk(cats[c].1)
  }

  /** The store holds its question dictionary under `questions`. */
  predicate QuestionStore(m: map<string, Value>) {
    "questions" in m && m["questions"].VDict? && CategoriesOk(m["questions"].entries)
  }

  function Categories(m: map<string, Value>): seq<(string, Value)>
    requires QuestionStore(m)
  {
    m["questions"].entries
  }

  // ----- toggle_favorite -----

  /** The first position from `from` on holding a question with id `id`, or -1. */
  function FirstWithId(items: seq<Value>, id: string, from: nat): (r: int)
    requires from <= |items|
    ensures r == -1 || (from <= r < |items| && IsId(items[r], id))
    ensures forall j :: from <= j < |items| && (r == -1 || j < r) ==> !IsId(items[j], id)
    decreases |items| - from
  {
    if from == |items| then -1
    else if IsId(items[from], id) then from
    else FirstWithId(items, id, from + 1)
  }

  predicate HasId(v: Value, id: string) {
    FirstWithId(AsList(v), id, 0) >= 0
  }

  /** The first category from `from` on holding a question with id `id`, or -1. */
  function FirstCategoryWithId(cats: seq<(string, Value)>, id: string, from: nat): (r: int)
    requires from <= |cats|
    ensures r == -1 || (from <= r < |cats| && HasId(cats[r].1, id))
    ensures forall j :: from <= j < |cats| && (r == -1 || j < r) ==> !HasId(cats[j].1, id)
    decreases |cats| - from
  {
    if from == |cats| then -1
    else if HasId(cats[from].1, id) then from
    else FirstCategoryWithId(cats, id, from + 1)
  }

  /** `question['favorite'] = not question['favorite']` */
  function Flip(q: Value): (r: Value)
    requires q.VDict? && Find(q.entries, "favorite").Some?
    ensures r.VDict? && Find(r.entries, "favorite") == Some(VBool(!Truthy(Find(q.entries, "favorite").value)))
  {
    VDict(SetKey(q.entries, "favorite", VBool(!Truthy(Find(q.entries, "favorite").value))))
  }

  /** A list with the mark of its first question carrying the id flipped. */
  function FlipFirst(items: seq<Value>, id: string): (r: seq<Value>)
    requires CategoryOk(VList(items))
  {
    var i := FirstWithId(items, id, 0);
    if i == -1 then items else items[i := Flip(items[i])]
  }

  /** The categories after toggling: only the first question carrying the id, in the
      first category that has one, has its mark flipped. */
  function Toggled(cats: seq<(string, Value)>, id: string): (r: seq<(string, Value)>)
    requires CategoriesOk(cats)
  {
    var c := FirstCategoryWithId(cats, id, 0);
    if c == -1 then cats else cats[c := (cats[c].0, VList(FlipFirst(cats[c].1.items, id)))]
  }

  /** `toggle_favorite(q_id)`: scans the categories in order and stops at the first
      question with the id. */
  method ToggleFavorite(s: Session, id: string)
    requires QuestionStore(s.state)
    modifies s
    ensures s.state == old(s.state)["questions" := VDict(Toggled(Categories(old(s.state)), id))]
  {
    var cats := Categories(s.state);
    for c := 0 to |cats|
      invariant FirstCategoryWithId(cats, id, 0) == FirstCategoryWithId(cats, id, c)
      invariant s.state == old(s.state)
    {
      var items := cats[c].1.items;
      for i := 0 to |items|
        invariant FirstWithId(items, id, 0) == FirstWithId(items, id, i)
        invariant s.state == old(s.state)
      {
        if IsId(items[i], id) {
          assert FlipFirst(items, id) == items[i := Flip(items[i])];
          s.state := s.state["questions" := VDict(cats[c := (cats[c].0, VList(items[i := Flip(items[i])]))])];
          return;
        }
      }
    }
  }

  /** Every favourite mark is a boolean, as the generators and the toggle write it. */
  predicate BoolMarks(v: Value)
    requires CategoryOk(v)
  {
    forall i :: 0 <= i < |v.items| ==> Find(v.items[i].entries, "favorite").value.VBool?
  }

  predicate BoolFavorites(cats: seq<(string, Value)>)
    requires CategoriesOk(cats)
  {
    forall c :: 0 <= c < |cats| ==> BoolMarks(cats[c].1)
  }

  /** Flipping keeps the question's id and, flipped back, restores it. */
  lemma FlipTwice(q: Value)
    requires WellFormedQuestion(q) && Find(q.entries, "favorite").value.VBool?
    ensures WellFormedQuestion(Flip(q)) && Find(Flip(q).entries, "id") == Find(q.entries, "id")
    ensures Flip(Flip(q)) == q
  {
    var fav := Find(q.entries, "favorite").value;
    SetKeyOthers(q.entries, "favorite", VBool(!Truthy(fav)), "id");
    SetKeyRestores(q.entries, "favorite", VBool(!Truthy(fav)), fav);
  }

  /** Two lists whose questions carry the id at the same places up to a match have their
      first match at the same place. */
  lemma {:induction false} FirstWithIdAgree(a: seq<Value>, b: seq<Value>, id: string, from: nat, i: nat)
    requires from <= i < |a| && |a| == |b| && IsId(a[i], id) && IsId(b[i], id)
    requires forall j :: from <= j < i ==> a[j] == b[j]
    ensures FirstWithId(a, id, from) == FirstWithId(b, id, from)
    decreases i - from
  {
    if from < i && !IsId(a[from], id) {
      FirstWithIdAgree(a, b, id, from + 1, i);
    }
  }

  lemma {:induction false} FirstCategoryAgree(t: seq<(string, Value)>, cats: seq<(string, Value)>, id: string,
                                              from: nat, c: nat)
    requires from <= c < |t| && |t| == |cats| && HasId(t[c].1, id) && HasId(cats[c].1, id)
    requires forall j :: from <= j < c ==> t[j] == cats[j]
    ensures FirstCategoryWithId(t, id, from) == FirstCategoryWithId(cats, id, from)
    decreases c - from
  {
    if from < c && !HasId(t[from].1, id) {
      FirstCategoryAgree(t, cats, id, from + 1, c);
    }
  }

  /** Within one list: flipping keeps the list well formed with boolean marks, keeps
      the first match where it was, and flipping again restores the list. */
  lemma {:induction false} FlipFirstTwice(items: seq<Value>, id: string)
    requires CategoryOk(VList(items)) && BoolMarks(VList(items))
    ensures CategoryOk(VList(FlipFirst(items, id))) && BoolMarks(VList(FlipFirst(items, id)))
    ensures FirstWithId(FlipFirst(items, id), id, 0) == FirstWithId(items, id, 0)
    ensures FlipFirst(FlipFirst(items, id), id) == items
  {
    var i := FirstWithId(items, id, 0);
    if i != -1 {
      FlipTwice(items[i]);
      var flipped := items[i := Flip(items[i])];
      assert IsId(flipped[i], id);
      FirstWithIdAgree(flipped, items, id, 0, i);
      assert flipped[i := Flip(flipped[i])] == items;
    }
  }

  /** Replacing one category's list by a well-formed list keeps the store well formed. */
  lemma {:induction false} ReplaceCategory(cats: seq<(string, Value)>, c: nat, v: Value)
    requires CategoriesOk(cats) && BoolFavorites(cats) && c < |cats| && CategoryOk(v) && BoolMarks(v)
    ensures CategoriesOk(cats[c := (cats[c].0, v)]) && BoolFavorites(cats[c := (cats[c].0, v)])
  {
    assert Keys(cats[c := (cats[c].0, v)]) == Keys(cats);
  }

  /** Toggling keeps the store well formed, with boolean marks. */
  lemma {:induction false} ToggledKeepsStore(cats: seq<(string, Value)>, id: string)
    requires CategoriesOk(cats) && BoolFavorites(cats)
    ensures CategoriesOk(Toggled(cats, id)) && BoolFavorites(Toggled(cats, id))
  {
    var c := FirstCategoryWithId(cats, id, 0);
    if c != -1 {
      FlipFirstTwice(cats[c].1.items, id);
      ReplaceCategory(cats, c, VList(FlipFirst(cats[c].1.items, id)));
    }
  }

  /** Toggling the same id twice gives back the original questions. */
  lemma ToggleTwice(cats: seq<(string, Value)>, id: string)
    requires CategoriesOk(cats) && BoolFavorites(cats)
    ensures CategoriesOk(Toggled(cats, id)) && Toggled(Toggled(cats, id), id) == cats
  {
    ToggledKeepsStore(cats, id);
    var c := FirstCategoryWithId(cats, id, 0);
    if c != -1 {
      ToggleTwiceAt(cats, id, c);
    }
  }

  lemma ToggleTwiceAt(cats: seq<(string, Value)>, id: string, c: nat)
    requires CategoriesOk(cats) && BoolFavorites(cats) && c == FirstCategoryWithId(cats, id, 0) && c < |cats|
    ensures CategoriesOk(Toggled(cats, id)) && Toggled(Toggled(cats, id), id) == cats
  {
    ToggledKeepsStore(cats, id);
    ToggledFirst(cats, id, c);
    var t := Toggled(cats, id);
    var items := cats[c].1.items;
    assert Toggled(t, id) == t[c := (cats[c].0, VList(items))];
  }

  /** After one toggle the id is still first found in category `c`, whose list is the
      flipped one and flips back. */
  lemma ToggledFirst(cats: seq<(string, Value)>, id: string, c: nat)
    requires CategoriesOk(cats) && BoolFavorites(cats) && c == FirstCategoryWithId(cats, id, 0) && c < |cats|
    ensures CategoriesOk(Toggled(cats, id))
    ensures Toggled(cats, id) == cats[c := (cats[c].0, VList(FlipFirst(cats[c].1.items, id)))]
    ensures FirstCategoryWithId(Toggled(cats, id), id, 0) == c
    ensures FlipFirst(FlipFirst(cats[c].1.items, id), id) == cats[c].1.items
  {
    ToggledKeepsStore(cats, id);
    var items := cats[c].1.items;
    var t := cats[c := (cats[c].0, VList(FlipFirst(items, id)))];
    FlipFirstTwice(items, id);
    assert HasId(t[c].1, id);
    FirstCategoryAgree(t, cats, id, 0, c);
  }

  // ----- delete_question -----

  /** `[q for q in questions_list if q['id'] != q_id]` */
  function Kept(items: seq<Value>, id: string): (r: seq<Value>)
    ensures forall q :: q in r ==> q in items && !IsId(q, id)
    ensures forall q :: q in items && !IsId(q, id) ==> q in r
  {
    if items == [] then []
    else if IsId(items[0], id) then Kept(items[1..], id)
    else [items[0]] + Kept(items[1..], id)
  }

  /** Filtering keeps the relative order: it distributes over concatenation. */
  lemma {:induction false} KeptAppend(a: seq<Value>, b: seq<Value>, id: string)
    ensures Kept(a + b, id) == Kept(a, id) + Kept(b, id)
  {
    if a == [] {
      assert a + b == b;
    } else {
      assert (a + b)[1..] == a[1..] + b;
      KeptAppend(a[1..], b, id);
    }
  }

  /** A list without the id is kept whole; so filtering twice is filtering once. */
  lemma {:induction false} KeptUnmatched(items: seq<Value>, id: string)
    requires forall j :: 0 <= j < |items| ==> !IsId(items[j], id)
    ensures Kept(items, id) == items
  {
    if items != [] {
      KeptUnmatched(items[1..], id);
    }
  }

  /** Every category with the id's questions filtered out. */
  function Deleted(cats: seq<(string, Value)>, id: string): (r: seq<(string, Value)>)
    ensures |r| == |cats|
    ensures forall c :: 0 <= c < |r| ==> r[c] == (cats[c].0, VList(Kept(AsList(cats[c].1), id)))
  {
    seq(|cats|, c requires 0 <= c < |cats| => (cats[c].0, VList(Kept(AsList(cats[c].1), id))))
  }

  /** `delete_question(q_id)`: each category list is replaced by its filtered copy. */
  method DeleteQuestion(s: Session, id: string)
    requires QuestionStore(s.state)
    modifies s
    ensures s.state == old(s.state)["questions" := VDict(Deleted(Categories(old(s.state)), id))]
  {
    var cats := Categories(s.state);
    var done := cats;
    for c := 0 to |cats|
      invariant |done| == |cats|
      invariant forall j :: 0 <= j < c ==> done[j] == (cats[j].0, VList(Kept(AsList(cats[j].1), id)))
      invariant forall j :: c <= j < |cats| ==> done[j] == cats[j]
      invariant s.state == old(s.state)["questions" := VDict(done)]
    {
      done := done[c := (cats[c].0, VList(Kept(cats[c].1.items, id)))];
      s.state := s.state["questions" := VDict(done)];
    }
    assert done == Deleted(cats, id);
  }

  /** Filtering a well-formed list keeps it well formed, and filtering again keeps it. */
  lemma KeptTwice(items: seq<Value>, id: string)
    requires CategoryOk(VList(items))
    ensures CategoryOk(VList(Kept(items, id))) && Kept(Kept(items, id), id) == Kept(items, id)
  {
    var kept := Kept(items, id);
    assert forall j :: 0 <= j < |kept| ==> kept[j] in kept;
    KeptUnmatched(kept, id);
  }

  /** Deleting keeps the store well formed, and deleting again changes nothing. */
  lemma {:induction false} DeleteTwice(cats: seq<(string, Value)>, id: string)
    requires CategoriesOk(cats)
    ensures CategoriesOk(Deleted(cats, id)) && Deleted(Deleted(cats, id), id) == Deleted(cats, id)
  {
    var d := Deleted(cats, id);
    assert Keys(d) == Keys(cats);
    forall c | 0 <= c < |cats|
      ensures CategoryOk(d[c].1) && Kept(AsList(d[c].1), id) == AsList(d[c].1)
    {
      KeptTwice(cats[c].1.items, id);
    }
    assert Deleted(d, id) == d;
  }

  /** After deleting, no question carries the id and every other question stays in its
      category. */
  lemma {:induction false} DeleteRemoves(cats: seq<(string, Value)>, id: string)
    requires CategoriesOk(cats)
    ensures forall c, q :: 0 <= c < |cats| && q in AsList(Deleted(cats, id)[c].1) ==> !IsId(q, id)
    ensures forall c, q :: 0 <= c < |cats| && q in cats[c].1.items && !IsId(q, id) ==>
      q in AsList(Deleted(cats, id)[c].1)
  {
  }

  // ----- clear_session -----

  const NamedKeys: seq<string> := ["questions", "company_info", "messages", "company_summary"]

  /** The keys of the answer, favourite and delete widgets. */
  predicate IsWidgetKey(k: string) {
    StartsWith(k, "ans_") || StartsWith(k, "fav_") || StartsWith(k, "del_")
  }

  /** The widget keys present in a store. */
  function WidgetKeys(m: map<string, Value>): set<string> {
    set k | k in m && IsWidgetKey(k)
  }

  /** What `clear_session` removes from a store. */
  function ClearedKeys(m: map<string, Value>): set<string> {
    {"questions", "company_info", "messages", "company_summary"} + WidgetKeys(m)
  }

  /** `clear_session()`: the four named keys go first, then every widget key. */
  method ClearSession(s: Session)
    modifies s
    ensures s.state == Without(old(s.state), ClearedKeys(old(s.state)))
  {
    DeleteKeys(s, NamedKeys);
    DeleteWidgetKeys(s);
    ClearedInTwoSteps(old(s.state));
  }

  lemma ClearedInTwoSteps(m: map<string, Value>)
    ensures var named := Without(m, Members(NamedKeys));
      Without(named, WidgetKeys(named)) == Without(m, ClearedKeys(m))
  {
    assert Members(NamedKeys) == {"questions", "company_info", "messages", "company_summary"};
  }

  /** The second loop of `clear_session`: every key of the store, as listed before the
      loop starts, is deleted when it names a widget. */
  method DeleteWidgetKeys(s: Session)
    modifies s
    ensures s.state == Without(old(s.state), WidgetKeys(old(s.state)))
  {
    var keys := s.state.Keys;
    while keys != {}
      invariant keys <= s.state.Keys
      invariant s.state == Without(old(s.state), WidgetKeys(old(s.state)) - keys)
      decreases keys
    {
      var k :| k in keys;
      if IsWidgetKey(k) {
        s.state := map j | j in s.state && j != k :: s.state[j];
      }
      keys := keys - {k};
    }
  }

  /** Clearing removes every named and widget key, keeps every other entry as it was,
      and clearing a cleared store changes nothing. */
  lemma ClearSessionSpec(m: map<string, Value>)
    ensures var r := Without(m, ClearedKeys(m));
      (forall k :: k in r ==> !IsWidgetKey(k) && k !in NamedKeys && r[k] == m[k])
      && (forall k :: k in m && !IsWidgetKey(k) && k !in NamedKeys ==> k in r)
      && Without(r, ClearedKeys(r)) == r
  {
  }

  // ----- Widget sync -----

  /** The key of a question's answer widget. */
  function AnswerKey(q: Value): string
    requires WellFormedQuestion(q)
  {
    "ans_" + IdOf(q)
  }

  /** One question after the sync: the widget's value becomes its answer when the widget
      exists, and the question is untouched otherwise. */
  function Synced(q: Value, m: map<string, Value>): (r: Value)
    requires WellFormedQuestion(q)
  {
    if AnswerKey(q) in m then VDict(SetKey(q.entries, "answer", m[AnswerKey(q)])) else q
  }

  function SyncedList(items: seq<Value>, m: map<string, Value>): (r: seq<Value>)
    requires forall i :: 0 <= i < |items| ==> WellFormedQuestion(items[i])
    ensures |r| == |items| && forall i :: 0 <= i < |r| ==> r[i] == Synced(items[i], m)
  {
    seq(|items|, i requires 0 <= i < |items| => Synced(items[i], m))
  }

  function SyncedCategories(cats: seq<(string, Value)>, m: map<string, Value>): (r: seq<(string, Value)>)
    requires CategoriesOk(cats)
    ensures |r| == |cats| && forall c :: 0 <= c < |r| ==> r[c] == (cats[c].0, VList(SyncedList(cats[c].1.items, m)))
  {
    seq(|cats|, c requires 0 <= c < |cats| => (cats[c].0, VList(SyncedList(cats[c].1.items, m))))
  }

  /** The answer and the identity of a synced question. */
  lemma SyncedFields(q: Value, m: map<string, Value>)
    requires WellFormedQuestion(q)
    ensures WellFormedQuestion(Synced(q, m)) && IdOf(Synced(q, m)) == IdOf(q)
    ensures AnswerKey(q) in m ==> Find(Synced(q, m).entries, "answer") == Some(m[AnswerKey(q)])
    ensures forall k :: k != "answer" ==> Find(Synced(q, m).entries, k) == Find(q.entries, k)
    ensures AnswerKey(q) !in m ==> Synced(q, m) == q
    ensures Synced(Synced(q, m), m) == Synced(q, m)
  {
    if AnswerKey(q) in m {
      var x := m[AnswerKey(q)];
      forall k | k != "answer"
        ensures Find(Synced(q, m).entries, k) == Find(q.entries, k)
      {
        SetKeyOthers(q.entries, "answer", x, k);
      }
      SetKeyTwice(q.entries, "answer", x, x);
    }
  }

  /** A widget key never names the question dictionary itself. */
  lemma AnswerKeyNotQuestions(q: Value)
    requires WellFormedQuestion(q)
    ensures AnswerKey(q) != "questions"
  {
    assert AnswerKey(q)[0] == 'a';
  }

  method SyncList(items: seq<Value>, m: map<string, Value>) returns (r: seq<Value>)
    requires forall i :: 0 <= i < |items| ==> WellFormedQuestion(items[i])
    ensures r == SyncedList(items, m)
  {
    r := items;
    for i := 0 to |items|
      invariant |r| == |items|
      invariant forall j :: 0 <= j < i ==> r[j] == Synced(items[j], m)
      invariant forall j :: i <= j < |items| ==> r[j] == items[j]
    {
      var key := "ans_" + IdOf(items[i]);
      if key in m {
        r := r[i := VDict(SetKey(items[i].entries, "answer", m[key]))];
      }
    }
  }

  /** Only the question dictionary changes while syncing, so a widget read mid-loop sees
      the value it had before the loop. */
  lemma SyncIgnoresQuestions(items: seq<Value>, m: map<string, Value>, v: Value)
    requires forall i :: 0 <= i < |items| ==> WellFormedQuestion(items[i])
    ensures SyncedList(items, m["questions" := v]) == SyncedList(items, m)
  {
    forall i | 0 <= i < |items|
      ensures Synced(items[i], m["questions" := v]) == Synced(items[i], m)
    {
      AnswerKeyNotQuestions(items[i]);
    }
  }

  /** The sync loop before the page renders the questions. */
  method SyncAnswers(s: Session)
    requires QuestionStore(s.state)
    modifies s
    ensures s.state == old(s.state)["questions" := VDict(SyncedCategories(Categories(old(s.state)), old(s.state)))]
  {
    var cats := Categories(s.state);
    var done := cats;
    for c := 0 to |cats|
      invariant |done| == |cats|
      invariant forall j :: 0 <= j < c ==> done[j] == (cats[j].0, VList(SyncedList(cats[j].1.items, old(s.state))))
      invariant forall j :: c <= j < |cats| ==> done[j] == cats[j]
      invariant s.state == old(s.state)["questions" := VDict(done)]
    {
      var items := SyncList(cats[c].1.items, s.state);
      SyncIgnoresQuestions(cats[c].1.items, old(s.state), VDict(done));
      done := done[c := (cats[c].0, VList(items))];
      s.state := s.state["questions" := VDict(done)];
    }
    assert done == SyncedCategories(cats, old(s.state));
  }

  /** Syncing a list keeps it well formed, and syncing it again changes nothing. */
  lemma SyncedListTwice(items: seq<Value>, m: map<string, Value>)
    requires CategoryOk(VList(items))
    ensures CategoryOk(VList(SyncedList(items, m)))
    ensures SyncedList(SyncedList(items, m), m) == SyncedList(items, m)
  {
    var r := SyncedList(items, m);
    forall i | 0 <= i < |items|
      ensures WellFormedQuestion(r[i]) && Synced(r[i], m) == r[i]
    {
      SyncedFields(items[i], m);
    }
  }

  /** The store stays well formed, and syncing twice is syncing once. */
  lemma {:induction false} SyncTwice(cats: seq<(string, Value)>, m: map<string, Value>)
    requires CategoriesOk(cats)
    ensures CategoriesOk(SyncedCategories(cats, m))
    ensures SyncedCategories(SyncedCategories(cats, m), m) == SyncedCategories(cats, m)
  {
    var r := SyncedCategories(cats, m);
    assert Keys(r) == Keys(cats);
    forall c | 0 <= c < |cats|
      ensures CategoryOk(r[c].1) && SyncedList(r[c].1.items, m) == r[c].1.items
    {
      SyncedListTwice(cats[c].1.items, m);
    }
    assert SyncedCategories(r, m) == r;
  }

  // ----- The completion command -----

  /** The model every generator of the app asks. */
  const AppModel: string := "claude-3-5-sonnet"
  const CommandHead: string := "SELECT SNOWFLAKE.CORTEX.COMPLETE('" + AppModel + "', '"
  const CommandTail: string := "') as response" + ";"

  /** The query each generator sends: the prompt with its quotes doubled inside a
      single-quoted literal. */
  function AppCommand(prompt: string): (r: string)
    ensures |r| >= |CommandHead| + |CommandTail|
    ensures r[..|CommandHead|] == CommandHead && r[|r| - |CommandTail|..] == CommandTail
    ensures var body := r[|CommandHead|..|r| - |CommandTail|];
      Completion.WellEscaped(body) && Completion.Unescape(body) == prompt
  {
    var r := CommandHead + Completion.Escape(prompt) + CommandTail;
    assert r[|CommandHead|..|r| - |CommandTail|] == Completion.Escape(prompt);
    Completion.EscapeWellFormed(prompt);
    Completion.UnescapeEscape(prompt);
    r
  }

  /** The same command the shared completion layer builds, with a closing semicolon. */
  lemma AppCommandIsShared(prompt: string)
    ensures AppCommand(prompt) == Completion.CompletionCommand(AppModel, prompt) + ";"
  {
    var body := CommandHead + Completion.Escape(prompt);
    assert AppCommand(prompt) == body + ("') as response" + ";");
    assert body + ("') as response" + ";") == (body + "') as response") + ";";
  }

  // ----- Reading a reply -----

  /** `s[s.find('{'):s.rfind('}') + 1]`, or `None` when either brace is missing. */
  function ObjectSlice(s: string): (r: Option<string>)
    ensures r.Some? <==> '{' in s && '}' in s
    ensures r.Some? && IndexOf(s, '{') < LastIndexOf(s, '}') ==>
      r.value == s[IndexOf(s, '{')..LastIndexOf(s, '}') + 1]
      && r.value[0] == '{' && r.value[|r.value| - 1] == '}'
    ensures r.Some? && LastIndexOf(s, '}') < IndexOf(s, '{') ==> r.value == []
  {
    Completion.IndexOfIn(s, '{');
    Completion.IndexOfIn(s, '}');
    var start := IndexOf(s, '{');
    var end := LastIndexOf(s, '}') + 1;
    if start != -1 && end != 0 then Some(Slice(s, start, end)) else None
  }

  /** What `json.loads` makes of the reply: `None` for no row, an empty cell, a reply
      without braces and a slice that does not decode. */
  function ParsedReply(reply: Option<string>, loads: string -> Option<Value>): (r: Option<Value>)
    ensures reply.None? || reply.value == "" ==> r.None?
  {
    if reply.None? || reply.value == "" then None
    else match ObjectSlice(reply.value)
      case None => None
      case Some(slice) => loads(slice)
  }

  /** A question as the app makes it: id, text, empty answer, not a favourite. */
  function NewQuestion(id: string, text: Value): Value {
    VDict([("id", VStr(id)), ("text", text), ("answer", VStr("")), ("favorite", VBool(false))])
  }

  predicate IsAppQuestion(q: Value) {
    q.VDict? && |q.entries| == 4
    && q.entries[0].0 == "id" && q.entries[0].1.VStr? && q.entries[1].0 == "text"
    && q.entries[2] == ("answer", VStr("")) && q.entries[3] == ("favorite", VBool(false))
  }

  /** A new question is well formed, unanswered and not a favourite. */
  lemma AppQuestionFields(q: Value)
    requires IsAppQuestion(q)
    ensures WellFormedQuestion(q) && IdOf(q) == q.entries[0].1.s
    ensures Find(q.entries, "answer") == Some(VStr("")) && Find(q.entries, "favorite") == Some(VBool(false))
  {
    KeyIndexAt(q.entries, "answer", 2);
    KeyIndexAt(q.entries, "favorite", 3);
  }

  /** The questions made from `items`, the i-th with id number `base + i`. */
  function Stamped(items: seq<Value>, newId: nat -> string, base: nat): (r: seq<Value>)
    ensures |r| == |items|
    ensures forall i :: 0 <= i < |r| ==>
      IsAppQuestion(r[i]) && r[i].entries[0].1 == VStr(newId(base + i)) && r[i].entries[1].1 == items[i]
  {
    seq(|items|, i requires 0 <= i < |items| => NewQuestion(newId(base + i), items[i]))
  }

  /** How many items `for q in v` visits. */
  function Width(v: Value): nat {
    match v
    case VList(items) => |items|
    case VStr(str) => |str|
    case VDict(entries) => |entries|
    case _ => 0
  }

  lemma WidthItems(v: Value)
    requires LlmPost.Iterable(v)
    ensures Width(v) == |LlmPost.Items(v)|
  {
  }

  /** The id number the first question of category `n` gets: `base` plus the number of
      items in the categories before it. */
  function Offset(entries: seq<(string, Value)>, base: nat, n: nat): nat
    requires n <= |entries|
  {
    if n == 0 then base else Offset(entries, base, n - 1) + Width(entries[n - 1].1)
  }

  /** The id numbers of every category's first question, and the next one after them. */
  function Offsets(entries: seq<(string, Value)>, base: nat): (r: seq<nat>)
    ensures |r| == |entries| + 1
  {
    seq(|entries| + 1, n requires 0 <= n <= |entries| => Offset(entries, base, n))
  }

  /** The first `n` categories of `processed_questions`: each reply category under its own
      key, its items made into new questions numbered on from the ones before. */
  function Generated(entries: seq<(string, Value)>, newId: nat -> string, base: nat, n: nat)
    : seq<(string, Value)>
    requires n <= |entries| && LlmPost.CategoriesIterable(entries)
  {
    seq(n, c requires 0 <= c < n =>
      (entries[c].0, VList(Stamped(LlmPost.Items(entries[c].1), newId, Offsets(entries, base)[c]))))
  }

  /** The parsed reply's categories when every step succeeds; a category that cannot be
      iterated raises inside the loop and `{}` comes back. */
  predicate Processable(p: Option<Value>) {
    p.Some? && p.value.VDict? && LlmPost.CategoriesIterable(p.value.entries)
  }

  /** What `json.loads` promises: a decoded object never repeats a key. */
  ghost predicate DecodesObjects(loads: string -> Option<Value>) {
    forall s :: loads(s).Some? && loads(s).value.VDict? ==> UniqueKeys(loads(s).value.entries)
  }

  /** `generate_discovery_questions` once the completion request has returned `reply`:
      each category of the decoded object becomes a list of new questions under the same
      key, in the reply's order; any failure gives `{}`. Ids are `newId(base)`,
      `newId(base + 1)`, ... in the order the questions are made. */
  method GenerateDiscoveryQuestions(reply: Option<string>, loads: string -> Option<Value>,
                                    newId: nat -> string, base: nat)
    returns (processed: seq<(string, Value)>)
    requires DecodesObjects(loads)
    ensures !Processable(ParsedReply(reply, loads)) ==> processed == []
    ensures Processable(ParsedReply(reply, loads)) ==>
      var entries := ParsedReply(reply, loads).value.entries;
      processed == Generated(entries, newId, base, |entries|)
  {
    var parsed := ParsedReply(reply, loads);
    if !Processable(parsed) {
      return [];
    }
    UniqueDecoded(reply, loads);
    processed := StampCategories(parsed.value.entries, newId, base);
  }

  /** A reply that decodes at all decodes to an object with distinct keys. */
  lemma UniqueDecoded(reply: Option<string>, loads: string -> Option<Value>)
    requires DecodesObjects(loads) && Processable(ParsedReply(reply, loads))
    ensures UniqueKeys(ParsedReply(reply, loads).value.entries)
  {
    var slice := ObjectSlice(reply.value).value;
    assert loads(slice).Some? && loads(slice).value.VDict?;
  }

  /** The loop of `generate_discovery_questions` over the decoded categories. */
  method StampCategories(entries: seq<(string, Value)>, newId: nat -> string, base: nat)
    returns (processed: seq<(string, Value)>)
    requires LlmPost.CategoriesIterable(entries) && UniqueKeys(entries)
    ensures processed == Generated(entries, newId, base, |entries|)
  {
    processed := [];
    var next := base;
    for n := 0 to |entries|
      invariant processed == Generated(entries, newId, base, n)
      invariant next == Offsets(entries, base)[n]
    {
      var qs := LlmPost.Items(entries[n].1);
      WidthItems(entries[n].1);
      GeneratedStep(entries, newId, base, n);
      processed := SetKey(processed, entries[n].0, VList(Stamped(qs, newId, next)));
      next := next + |qs|;
    }
  }

  /** Assigning the next category's key appends it, since the keys before are distinct. */
  lemma GeneratedStep(entries: seq<(string, Value)>, newId: nat -> string, base: nat, n: nat)
    requires n < |entries| && LlmPost.CategoriesIterable(entries) && UniqueKeys(entries)
    ensures SetKey(Generated(entries, newId, base, n), entries[n].0,
                   VList(Stamped(LlmPost.Items(entries[n].1), newId, Offsets(entries, base)[n])))
            == Generated(entries, newId, base, n + 1)
  {
    var g := Generated(entries, newId, base, n);
    forall j | 0 <= j < |g|
      ensures g[j].0 != entries[n].0
    {
      assert g[j].0 == entries[j].0;
    }
    KeyIndexAbsent(g, entries[n].0);
  }

  /** The categories before `d` use up the id numbers below category `d`'s first. */
  lemma {:induction false} OffsetGrows(entries: seq<(string, Value)>, base: nat, c: nat, d: nat)
    requires c < d <= |entries|
    ensures Offset(entries, base, c) + Width(entries[c].1) <= Offset(entries, base, d)
    decreases d - c
  {
    if d > c + 1 {
      OffsetGrows(entries, base, c, d - 1);
    }
  }

  /** Two different item positions get different id numbers. */
  lemma IdNumbersDistinct(entries: seq<(string, Value)>, base: nat, c: nat, i: nat, d: nat, j: nat)
    requires c < |entries| && d < |entries| && LlmPost.CategoriesIterable(entries)
    requires i < |LlmPost.Items(entries[c].1)| && j < |LlmPost.Items(entries[d].1)| && (c, i) != (d, j)
    ensures Offsets(entries, base)[c] + i != Offsets(entries, base)[d] + j
  {
    WidthItems(entries[c].1);
    WidthItems(entries[d].1);
    if c < d {
      OffsetGrows(entries, base, c, d);
    } else if d < c {
      OffsetGrows(entries, base, d, c);
    }
  }

  /** A list of new questions only. */
  predicate AllAppQuestions(v: Value) {
    v.VList? && forall i :: 0 <= i < |v.items| ==> IsAppQuestion(v.items[i])
  }

  /** The result keeps the reply's keys in order and every generated question is new:
      empty answer, no favourite mark. */
  lemma DiscoveryQuestionsFresh(entries: seq<(string, Value)>, newId: nat -> string, base: nat)
    requires LlmPost.CategoriesIterable(entries)
    ensures var r := Generated(entries, newId, base, |entries|);
      Keys(r) == Keys(entries) && forall c :: 0 <= c < |r| ==> AllAppQuestions(r[c].1)
  {
  }

  /** The value stored first in a dictionary: the id of a new question. */
  function FirstValue(q: Value): Value {
    if q.VDict? && q.entries != [] then q.entries[0].1 else VNone
  }

  /** With an injective id source no two generated questions share an id. */
  lemma DiscoveryQuestionIdsDistinct(entries: seq<(string, Value)>, newId: nat -> string, base: nat)
    requires LlmPost.CategoriesIterable(entries)
    requires forall a: nat, b: nat :: newId(a) == newId(b) ==> a == b
    ensures var r := Generated(entries, newId, base, |entries|);
      forall c, i, d, j ::
        0 <= c < |r| && 0 <= i < |AsList(r[c].1)| && 0 <= d < |r| && 0 <= j < |AsList(r[d].1)| && (c, i) != (d, j)
        ==> FirstValue(AsList(r[c].1)[i]) != FirstValue(AsList(r[d].1)[j])
  {
    var r := Generated(entries, newId, base, |entries|);
    forall c, i, d, j | 0 <= c < |r| && 0 <= i < |AsList(r[c].1)| && 0 <= d < |r| && 0 <= j < |AsList(r[d].1)|
                        && (c, i) != (d, j)
      ensures FirstValue(AsList(r[c].1)[i]) != FirstValue(AsList(r[d].1)[j])
    {
      IdNumbersDistinct(entries, base, c, i, d, j);
      GeneratedId(entries, newId, base, c, i);
      GeneratedId(entries, newId, base, d, j);
    }
  }

  lemma GeneratedId(entries: seq<(string, Value)>, newId: nat -> string, base: nat, c: nat, i: nat)
    requires c < |entries| && LlmPost.CategoriesIterable(entries)
    requires i < |AsList(Generated(entries, newId, base, |entries|)[c].1)|
    ensures i < |LlmPost.Items(entries[c].1)|
    ensures FirstValue(AsList(Generated(entries, newId, base, |entries|)[c].1)[i])
            == VStr(newId(Offsets(entries, base)[c] + i))
  {
    var items := LlmPost.Items(entries[c].1);
    var st := Stamped(items, newId, Offsets(entries, base)[c]);
    var g := Generated(entries, newId, base, |entries|);
    assert g[c] == (entries[c].0, VList(st));
    assert AsList(g[c].1) == st;
    var q := st[i];
    assert IsAppQuestion(q) && q.entries[0].1 == VStr(newId(Offsets(entries, base)[c] + i));
    assert FirstValue(q) == q.entries[0].1;
  }

  /** `generate_more_questions_for_category` once the completion request has returned
      `reply`: the `new_questions` list of the decoded object made into new questions,
      and `[]` on any failure. */
  function MoreQuestions(reply: Option<string>, loads: string -> Option<Value>, newId: nat -> string, base: nat)
    : (r: seq<Value>)
    ensures forall i :: 0 <= i < |r| ==> IsAppQuestion(r[i]) && r[i].entries[0].1 == VStr(newId(base + i))
  {
    var parsed := ParsedReply(reply, loads);
    if parsed.None? || !parsed.value.VDict? then []
    else
      var list := Get(parsed.value, "new_questions", VList([]));
      if LlmPost.Iterable(list) then Stamped(LlmPost.Items(list), newId, base) else []
  }

  /** A reply that decodes to an object without `new_questions` yields no questions, and
      one with a list yields one question per item, carrying the item as its text. */
  lemma MoreQuestionsSpec(reply: Option<string>, loads: string -> Option<Value>, newId: nat -> string, base: nat)
    ensures var p := ParsedReply(reply, loads);
      p.Some? && p.value.VDict? && !HasKey(p.value.entries, "new_questions") ==> MoreQuestions(reply, loads, newId, base) == []
    ensures var p := ParsedReply(reply, loads);
      p.Some? && p.value.VDict? && Find(p.value.entries, "new_questions").Some?
      && Find(p.value.entries, "new_questions").value.VList? ==>
        var items := Find(p.value.entries, "new_questions").value.items;
        var r := MoreQuestions(reply, loads, newId, base);
        |r| == |items| && forall i :: 0 <= i < |r| ==> r[i].entries[1] == ("text", items[i])
  {
  }

  // ----- The export's company name -----

  /** `company_info.get('website', 'N/A').replace('https://','').replace('www.','')
      .split('.')[0].capitalize()` */
  function CompanyLabel(info: Value): (r: string)
    requires info.VDict? && Get(info, "website", VStr("N/A")).VStr?
    ensures '.' !in r
    ensures |r| <= |Get(info, "website", VStr("N/A")).s|
    ensures var host := Replace(Replace(Get(info, "website", VStr("N/A")).s, "https://", ""), "www.", "");
      |r| <= |host| && r == Capitalize(host[..|r|]) && '.' !in host[..|r|]
      && (|r| < |host| ==> host[|r|] == '.')
  {
    var website := Get(info, "website", VStr("N/A")).s;
    var host := Replace(Replace(website, "https://", ""), "www.", "");
    ReplaceByEmptyShrinks(website, "https://");
    ReplaceByEmptyShrinks(Replace(website, "https://", ""), "www.");
    SplitHead(host, '.');
    var stem := Split(host, '.')[0];
    var r := Capitalize(stem);
    assert forall i :: 0 <= i < |r| ==> r[i] != '.';
    assert stem == host[..|r|];
    r
  }
}
