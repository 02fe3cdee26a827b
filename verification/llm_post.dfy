/** The deterministic post-processing in `modules/llm_functions.py` around the question
    generators: shaping a discovery-questions reply into categories of new questions,
    ordering the categories with the competitive one placed as the competitor requires,
    and picking the question list out of an initiative reply. What a completion request
    returned is a parameter here; the request itself is `Completion.CortexRequest`. */
module LlmPost {
  import opened Text
  import opened Values
  import opened Questions

  // ----- Question records -----

  /** `for q in qs`: a list yields its items, a string its characters and a dictionary its
      keys; iterating anything else raises. */
  predicate Iterable(v: Value) {
    v.VList? || v.VStr? || v.VDict?
  }

  function Items(v: Value): (r: seq<Value>)
    requires Iterable(v)
    ensures v.VList? ==> r == v.items
    ensures v.VStr? ==> |r| == |v.s| && forall i :: 0 <= i < |r| ==> r[i] == VStr([v.s[i]])
    ensures v.VDict? ==> |r| == |v.entries| && forall i :: 0 <= i < |r| ==> r[i] == VStr(v.entries[i].0)
  {
    if v.VList? then v.items
    else if v.VStr? then seq(|v.s|, i requires 0 <= i < |v.s| => VStr([v.s[i]]))
    else seq(|v.entries|, i requires 0 <= i < |v.entries| => VStr(v.entries[i].0))
  }

  /** A question as the generators store it: id, text, explanation, an empty answer and
      no favourite mark. */
  predicate IsNewQuestion(q: Value) {
    q.VDict? && |q.entries| == 5
    && q.entries[0].0 == "id" && q.entries[0].1.VStr?
    && q.entries[1].0 == "text" && q.entries[2].0 == "explanation"
    && q.entries[3] == ("answer", VStr("")) && q.entries[4] == ("favorite", VBool(false))
  }

  /** Read back through `get`, a new question has an empty answer and is not a favourite. */
  lemma NewQuestionFields(q: Value)
    requires IsNewQuestion(q)
    ensures Find(q.entries, "answer") == Some(VStr("")) && Find(q.entries, "favorite") == Some(VBool(false))
    ensures UniqueKeys(q.entries) && !Answered(q)
  {
    KeyIndexAt(q.entries, "answer", 3);
    KeyIndexAt(q.entries, "favorite", 4);
    assert !NonBlankStr(VStr(""));
  }

  /** One reply item made into a question: a dictionary gives its `text` (the item itself
      when absent) and its `explanation` (the default when absent); anything else is the
      text itself with the default explanation. */
  function ToQuestion(q: Value, id: string, defaultExplanation: string): (r: Value)
    ensures IsNewQuestion(r) && r.entries[0].1 == VStr(id)
    ensures !q.VDict? ==> r.entries[1].1 == q && r.entries[2].1 == VStr(defaultExplanation)
  {
    VDict([("id", VStr(id)),
           ("text", if q.VDict? then Get(q, "text", q) else q),
           ("explanation", if q.VDict? then Get(q, "explanation", VStr(defaultExplanation))
                           else VStr(defaultExplanation)),
           ("answer", VStr("")),
           ("favorite", VBool(false))])
  }

  /** The questions made from `items`, the i-th with the fresh id number `base + i`. */
  function Build(items: seq<Value>, base: nat, newId: nat -> string, defaultExplanation: string): (r: seq<Value>)
    ensures |r| == |items|
    ensures forall i :: 0 <= i < |r| ==> IsNewQuestion(r[i])
    ensures forall i :: 0 <= i < |r| ==> r[i] == ToQuestion(items[i], newId(base + i), defaultExplanation)
  {
    seq(|items|, i requires 0 <= i < |items| => ToQuestion(items[i], newId(base + i), defaultExplanation))
  }

  // ----- generate_discovery_questions -----

  const TechnicalDiscovery: string := "Technical Discovery"
  const BusinessDiscovery: string := "Business Discovery"
  const CompetitiveDefault: string := "Understanding this helps qualify the opportunity"
  const OtherDefault: string := "This question provides valuable sales insights"

  function CompetitiveKey(competitor: string): string {
    "Competitive Positioning vs. " + competitor
  }

  predicate IsCompetitive(category: string, competitor: string) {
    Contains(category, "Competitive Positioning") || Contains(category, competitor)
  }

  /** The key a reply category is stored under: the competitive key, or the title-cased
      category. */
  function Route(category: string, competitor: string): string {
    if IsCompetitive(category, competitor) then CompetitiveKey(competitor) else Title(category)
  }

  function Explanation(category: string, competitor: string): string {
    if IsCompetitive(category, competitor) then CompetitiveDefault else OtherDefault
  }

  /** What the reply must be for the code not to raise: a dictionary of iterables. */
  predicate CategoriesIterable(entries: seq<(string, Value)>) {
    forall i :: 0 <= i < |entries| ==> Iterable(entries[i].1)
  }

  datatype Batch = Batch(temp: seq<(string, Value)>, next: nat)

  /** `temp_processed` after the first `n` reply categories, and the next id number. A
      category routed to a key already present replaces that key's questions. */
  function Processed(entries: seq<(string, Value)>, competitor: string, newId: nat -> string,
                     base: nat, n: nat): (b: Batch)
    requires n <= |entries| && CategoriesIterable(entries)
    ensures b.next >= base
  {
    if n == 0 then Batch([], base)
    else
      var prev := Processed(entries, competitor, newId, base, n - 1);
      var category := entries[n - 1].0;
      var items := Items(entries[n - 1].1);
      var questions := Build(items, prev.next, newId, Explanation(category, competitor));
      Batch(SetKey(prev.temp, Route(category, competitor), VList(questions)), prev.next + |items|)
  }

  /** The category order the result starts with. */
  function CategoryOrder(competitor: string): seq<string> {
    [TechnicalDiscovery, BusinessDiscovery, CompetitiveKey(competitor)]
  }

  /** The key an ordered category is taken under: its title-cased form when present,
      otherwise itself when present, otherwise none. */
  function Choice(temp: seq<(string, Value)>, c: string): seq<string> {
    if HasKey(temp, Title(c)) then [Title(c)] else if HasKey(temp, c) then [c] else []
  }

  function LeadStep(temp: seq<(string, Value)>, o: seq<(string, Value)>, c: string): seq<(string, Value)> {
    if HasKey(temp, Title(c)) then SetKey(o, Title(c), Find(temp, Title(c)).value)
    else if HasKey(temp, c) then SetKey(o, c, Find(temp, c).value)
    else o
  }

  /** `ordered_questions` after the first `n` categories of `order`. */
  function Lead(temp: seq<(string, Value)>, order: seq<string>, n: nat): seq<(string, Value)>
    requires n <= |order|
  {
    if n == 0 then [] else LeadStep(temp, Lead(temp, order, n - 1), order[n - 1])
  }

  /** `ordered_questions` after the remaining-categories loop has seen `temp[..n]`. */
  function Rest(temp: seq<(string, Value)>, o: seq<(string, Value)>, n: nat): seq<(string, Value)>
    requires n <= |temp|
  {
    if n == 0 then o
    else
      var p := Rest(temp, o, n - 1);
      if temp[n - 1].0 in Keys(p) then p else p + [temp[n - 1]]
  }

  function Ordered(temp: seq<(string, Value)>, competitor: string): seq<(string, Value)> {
    Rest(temp, Lead(temp, CategoryOrder(competitor), 3), |temp|)
  }

  /** The keys the ordering puts first, in the fixed category order. */
  function Chosen(temp: seq<(string, Value)>, order: seq<string>, n: nat): seq<string>
    requires n <= |order|
  {
    if n == 0 then [] else Chosen(temp, order, n - 1) + Choice(temp, order[n - 1])
  }

  /** The keys of `temp[..n]` that are not among `ks`, in order. */
  function Others(temp: seq<(string, Value)>, ks: seq<string>, n: nat): seq<string>
    requires n <= |temp|
  {
    if n == 0 then []
    else if temp[n - 1].0 in ks then Others(temp, ks, n - 1)
    else Others(temp, ks, n - 1) + [temp[n - 1].0]
  }

  /** The ordering step of `generate_discovery_questions`: the three known categories
      first, then every other processed category in its own order. */
  method OrderCategories(temp: seq<(string, Value)>, competitor: string) returns (ordered: seq<(string, Value)>)
    ensures ordered == Ordered(temp, competitor)
  {
    var order := CategoryOrder(competitor);
    ordered := [];
    for n := 0 to 3
      invariant ordered == Lead(temp, order, n)
    {
      var category := order[n];
      if HasKey(temp, Title(category)) {
        ordered := SetKey(ordered, Title(category), Find(temp, Title(category)).value);
      } else if HasKey(temp, category) {
        ordered := SetKey(ordered, category, Find(temp, category).value);
      }
    }
    ghost var lead := ordered;
    for n := 0 to |temp|
      invariant ordered == Rest(temp, lead, n)
    {
      if temp[n].0 !in Keys(ordered) {
        ordered := ordered + [temp[n]];
      }
    }
  }

  /** The processing step of `generate_discovery_questions`: every reply category becomes
      a list of newId questions under its routed key. */
  method ProcessCategories(entries: seq<(string, Value)>, competitor: string, newId: nat -> string, base: nat)
    returns (temp: seq<(string, Value)>, next: nat)
    requires CategoriesIterable(entries)
    ensures Batch(temp, next) == Processed(entries, competitor, newId, base, |entries|)
    ensures UniqueKeys(temp)
    ensures FreshCategories(temp)
  {
    temp, next := [], base;
    for n := 0 to |entries|
      invariant Batch(temp, next) == Processed(entries, competitor, newId, base, n)
      invariant UniqueKeys(temp)
      invariant FreshCategories(temp)
    {
      var (category, qs) := entries[n];
      var items := Items(qs);
      var questions := Build(items, next, newId, Explanation(category, competitor));
      SetKeyFresh(temp, Route(category, competitor), VList(questions));
      SetKeyUnique(temp, Route(category, competitor), VList(questions));
      temp := SetKey(temp, Route(category, competitor), VList(questions));
      next := next + |items|;
    }
  }

  /** `generate_discovery_questions` once the completion request has returned `reply`:
      `{}` for a falsy reply, and otherwise the processed categories in order. Ids are
      `newId(base)`, `newId(base + 1)`, ... in the order the questions are made. */
  method DiscoveryQuestions(reply: Option<Value>, competitor: string, newId: nat -> string, base: nat)
    returns (r: seq<(string, Value)>, next: nat)
    requires reply.Some? && Truthy(reply.value) ==> reply.value.VDict? && CategoriesIterable(reply.value.entries)
    ensures reply.None? || !Truthy(reply.value) ==> r == [] && next == base
    ensures reply.Some? && Truthy(reply.value) ==>
      var b := Processed(reply.value.entries, competitor, newId, base, |reply.value.entries|);
      r == Ordered(b.temp, competitor) && next == b.next
    ensures FreshCategories(r)
  {
    if reply.None? || !Truthy(reply.value) {
      return [], base;
    }
    var temp;
    temp, next := ProcessCategories(reply.value.entries, competitor, newId, base);
    r := OrderCategories(temp, competitor);
    OrderedContents(temp, competitor);
    AgreeingFresh(r, temp);
  }

  /** A list holding only new questions. */
  predicate AllNew(v: Value) {
    v.VList? && forall j :: 0 <= j < |v.items| ==> IsNewQuestion(v.items[j])
  }

  /** Every category holds a list of new questions. */
  predicate FreshCategories(t: seq<(string, Value)>) {
    forall i :: 0 <= i < |t| ==> AllNew(t[i].1)
  }

  lemma SetKeyFresh(t: seq<(string, Value)>, k: string, v: Value)
    requires FreshCategories(t) && AllNew(v)
    ensures FreshCategories(SetKey(t, k, v))
  {
    SetKeyMembers(t, k, v);
    var r := SetKey(t, k, v);
    forall i | 0 <= i < |r| ensures AllNew(r[i].1) {
      assert r[i] in r;
    }
  }

  /** With an empty competitor every category is competitive, since the empty string
      occurs in every string: only the last category's questions survive, under the
      competitive key. */
  lemma {:induction false} EmptyCompetitorRoutesAll(entries: seq<(string, Value)>, newId: nat -> string,
                                                    base: nat, n: nat)
    requires 0 < n <= |entries| && CategoriesIterable(entries)
    ensures var prev := Processed(entries, "", newId, base, n - 1);
      Processed(entries, "", newId, base, n).temp
      == [(CompetitiveKey(""), VList(Build(Items(entries[n - 1].1), prev.next, newId, CompetitiveDefault)))]
  {
    var category := entries[n - 1].0;
    assert OccursAt(category, "", 0);
    assert IsCompetitive(category, "");
    if n > 1 {
      EmptyCompetitorRoutesAll(entries, newId, base, n - 1);
      var prev := Processed(entries, "", newId, base, n - 1);
      assert KeyIndex(prev.temp, CompetitiveKey("")) == 0;
    }
  }

  // ----- What the ordering promises -----

  /** Every entry of `o` is an entry of `temp`. */
  predicate Agrees(o: seq<(string, Value)>, temp: seq<(string, Value)>) {
    forall i :: 0 <= i < |o| ==> o[i] in temp
  }

  lemma KeysAppend(e: seq<(string, Value)>, x: (string, Value))
    ensures Keys(e + [x]) == Keys(e) + [x.0]
  {
  }

  /** Adding to `o` the key `k` that it lacks, with the value `temp` gives `k`. */
  lemma AddAgreeing(temp: seq<(string, Value)>, o: seq<(string, Value)>, k: string)
    requires Agrees(o, temp) && !HasKey(o, k) && HasKey(temp, k)
    ensures SetKey(o, k, Find(temp, k).value) == o + [(k, Find(temp, k).value)]
    ensures Keys(SetKey(o, k, Find(temp, k).value)) == Keys(o) + [k]
    ensures Agrees(SetKey(o, k, Find(temp, k).value), temp)
  {
    var v := Find(temp, k).value;
    KeysAppend(o, (k, v));
    assert (k, v) in temp;
  }

  /** The title-cased form of a string that starts with a capital starts with it too. */
  lemma TitleHead(c: string)
    requires c != [] && IsUpperAscii(c[0])
    ensures Title(c) != [] && Title(c)[0] == c[0]
  {
  }

  /** One step of the fixed-order loop, for a category whose candidate keys `o` lacks. */
  lemma LeadStepKeys(temp: seq<(string, Value)>, o: seq<(string, Value)>, c: string)
    requires Agrees(o, temp)
    requires !HasKey(o, Title(c)) && !HasKey(o, c)
    ensures Keys(LeadStep(temp, o, c)) == Keys(o) + Choice(temp, c)
    ensures Agrees(LeadStep(temp, o, c), temp)
  {
    if HasKey(temp, Title(c)) {
      AddAgreeing(temp, o, Title(c));
    } else if HasKey(temp, c) {
      AddAgreeing(temp, o, c);
    }
  }

  /** `o`, whose keys all start with one of `heads`, lacks both candidate keys of a
      category starting with another capital. */
  lemma NotAmong(o: seq<(string, Value)>, c: string, heads: set<char>)
    requires c != [] && IsUpperAscii(c[0]) && c[0] !in heads
    requires forall k :: k in Keys(o) ==> k != [] && k[0] in heads
    ensures !HasKey(o, Title(c)) && !HasKey(o, c)
  {
    TitleHead(c);
    HasKeyIffIn(o, Title(c));
    HasKeyIffIn(o, c);
  }

  lemma ChoiceHeads(temp: seq<(string, Value)>, c: string)
    requires c != [] && IsUpperAscii(c[0])
    ensures forall k :: k in Choice(temp, c) ==> k != [] && k[0] == c[0]
  {
    TitleHead(c);
  }

  /** One step of the fixed-order loop with the first characters of the keys tracked. */
  lemma LeadStepHeads(temp: seq<(string, Value)>, o: seq<(string, Value)>, c: string, heads: set<char>)
    requires Agrees(o, temp) && c != [] && IsUpperAscii(c[0]) && c[0] !in heads
    requires forall k :: k in Keys(o) ==> k != [] && k[0] in heads
    ensures Keys(LeadStep(temp, o, c)) == Keys(o) + Choice(temp, c)
    ensures Agrees(LeadStep(temp, o, c), temp)
    ensures forall k :: k in Keys(LeadStep(temp, o, c)) ==> k != [] && k[0] in heads + {c[0]}
  {
    NotAmong(o, c, heads);
    LeadStepKeys(temp, o, c);
    ChoiceHeads(temp, c);
  }

  /** The fixed-order loop, over three categories starting with three different capitals,
      takes the ones present, in that order, each with its value in `temp`. */
  lemma LeadOfThree(temp: seq<(string, Value)>, order: seq<string>)
    requires |order| == 3 && forall i :: 0 <= i < 3 ==> order[i] != [] && IsUpperAscii(order[i][0])
    requires order[0][0] != order[1][0] && order[0][0] != order[2][0] && order[1][0] != order[2][0]
    ensures Keys(Lead(temp, order, 3)) == Chosen(temp, order, 3) && Agrees(Lead(temp, order, 3), temp)
  {
    var o0: seq<(string, Value)> := [];
    var o1 := LeadStep(temp, o0, order[0]);
    var o2 := LeadStep(temp, o1, order[1]);
    assert Lead(temp, order, 1) == o1;
    assert Lead(temp, order, 2) == o2;
    assert Lead(temp, order, 3) == LeadStep(temp, o2, order[2]);
    LeadStepHeads(temp, o0, order[0], {});
    LeadStepHeads(temp, o1, order[1], {order[0][0]});
    LeadStepHeads(temp, o2, order[2], {order[0][0], order[1][0]});
    assert Keys(o0) == [] && Chosen(temp, order, 1) == Choice(temp, order[0]);
  }

  /** The fixed-order loop takes the Technical, Business and competitive categories that
      are present, in that order, each with its processed questions. */
  lemma LeadKeys(temp: seq<(string, Value)>, competitor: string)
    ensures var order := CategoryOrder(competitor);
      Keys(Lead(temp, order, 3)) == Chosen(temp, order, 3) && Agrees(Lead(temp, order, 3), temp)
  {
    var order := CategoryOrder(competitor);
    assert order[0][0] == 'T' && order[1][0] == 'B' && order[2][0] == 'C';
    LeadOfThree(temp, order);
  }

  /** A key of `temp` after position `n` is not among the other keys taken before it. */
  lemma {:induction false} OthersExclude(temp: seq<(string, Value)>, ks: seq<string>, n: nat, m: nat)
    requires UniqueKeys(temp) && n <= m < |temp|
    ensures temp[m].0 !in Others(temp, ks, n)
  {
    if n > 0 {
      OthersExclude(temp, ks, n - 1, m);
    }
  }

  /** Every key of `temp[..n]` is among `ks` or among the others. */
  lemma {:induction false} OthersCover(temp: seq<(string, Value)>, ks: seq<string>, n: nat)
    requires n <= |temp|
    ensures forall j :: 0 <= j < n ==> temp[j].0 in ks || temp[j].0 in Others(temp, ks, n)
  {
    if n > 0 {
      OthersCover(temp, ks, n - 1);
    }
  }

  lemma AgreesAppend(o: seq<(string, Value)>, temp: seq<(string, Value)>, x: (string, Value))
    requires Agrees(o, temp) && x in temp
    ensures Agrees(o + [x], temp)
  {
  }

  /** The remaining-categories loop adds only entries of `temp`. */
  lemma {:induction false} RestAgrees(temp: seq<(string, Value)>, o: seq<(string, Value)>, n: nat)
    requires n <= |temp| && Agrees(o, temp)
    ensures Agrees(Rest(temp, o, n), temp)
  {
    if n > 0 {
      RestAgrees(temp, o, n - 1);
      AgreesAppend(Rest(temp, o, n - 1), temp, temp[n - 1]);
    }
  }

  /** The remaining-categories loop appends, in order, each key of `temp` that the lead
      lacks. */
  lemma {:induction false} RestKeys(temp: seq<(string, Value)>, o: seq<(string, Value)>, n: nat)
    requires n <= |temp| && UniqueKeys(temp)
    ensures Keys(Rest(temp, o, n)) == Keys(o) + Others(temp, Keys(o), n)
  {
    if n > 0 {
      RestKeys(temp, o, n - 1);
      var p := Rest(temp, o, n - 1);
      var k := temp[n - 1].0;
      var before := Others(temp, Keys(o), n - 1);
      OthersExclude(temp, Keys(o), n - 1, n - 1);
      if k in Keys(p) {
        assert k in Keys(o);
      } else {
        assert k !in Keys(o);
        KeysAppend(p, temp[n - 1]);
        assert Keys(o) + before + [k] == Keys(o) + (before + [k]);
      }
    }
  }

  /** Two dictionaries with distinct keys, the first with the keys of the second and no
      entry the second lacks, map every key alike. */
  lemma SameContents(r: seq<(string, Value)>, temp: seq<(string, Value)>)
    requires UniqueKeys(temp) && Agrees(r, temp)
    requires forall j :: 0 <= j < |temp| ==> temp[j].0 in Keys(r)
    ensures forall k :: Find(r, k) == Find(temp, k)
  {
    forall k ensures Find(r, k) == Find(temp, k) {
      var i := KeyIndex(r, k);
      var j := KeyIndex(temp, k);
      if i >= 0 {
        var t :| 0 <= t < |temp| && temp[t] == r[i];
        KeyIndexAt(temp, k, t);
      } else if j >= 0 {
        HasKeyIffIn(r, k);
      }
    }
  }

  /** The result of `generate_discovery_questions` holds exactly the processed categories,
      each with its processed questions; its keys are first the Technical, Business and
      competitive categories that are present, then the others in processing order. */
  lemma OrderedContents(temp: seq<(string, Value)>, competitor: string)
    requires UniqueKeys(temp)
    ensures var chosen := Chosen(temp, CategoryOrder(competitor), 3);
      Keys(Ordered(temp, competitor)) == chosen + Others(temp, chosen, |temp|)
    ensures forall k :: Find(Ordered(temp, competitor), k) == Find(temp, k)
    ensures Agrees(Ordered(temp, competitor), temp)
  {
    var chosen := Chosen(temp, CategoryOrder(competitor), 3);
    var lead := Lead(temp, CategoryOrder(competitor), 3);
    LeadKeys(temp, competitor);
    RestKeys(temp, lead, |temp|);
    RestAgrees(temp, lead, |temp|);
    OthersCover(temp, chosen, |temp|);
    SameContents(Ordered(temp, competitor), temp);
  }

  /** Entries taken from categories of new questions are categories of new questions. */
  lemma AgreeingFresh(o: seq<(string, Value)>, temp: seq<(string, Value)>)
    requires Agrees(o, temp) && FreshCategories(temp)
    ensures FreshCategories(o)
  {
    forall i | 0 <= i < |o| ensures AllNew(o[i].1) {
      var j :| 0 <= j < |temp| && temp[j] == o[i];
    }
  }

  // ----- generate_initiative_questions, generate_custom_topic_questions -----

  /** `v[:5]` on a list or a string, the only values the code slices. */
  predicate Sliceable(v: Value) {
    v.VList? || v.VStr?
  }

  function FirstFive(v: Value): (r: Value)
    requires Sliceable(v)
    ensures v.VList? ==> r.VList? && |r.items| == Min(5, |v.items|) && r.items == v.items[..|r.items|]
    ensures v.VStr? ==> r.VStr? && |r.s| == Min(5, |v.s|) && r.s == v.s[..|r.s|]
  {
    if v.VList? then VList(v.items[..Min(5, |v.items|)]) else VStr(v.s[..Min(5, |v.s|)])
  }

  function Min(a: int, b: int): int {
    if a <= b then a else b
  }

  /** The position of the first list-valued entry, `|entries|` when there is none. */
  function FirstListAt(entries: seq<(string, Value)>, from: nat): (i: nat)
    requires from <= |entries|
    ensures from <= i <= |entries|
    ensures i < |entries| ==> entries[i].1.VList?
    ensures forall j :: from <= j < i ==> !entries[j].1.VList?
    decreases |entries| - from
  {
    if from == |entries| then from
    else if entries[from].1.VList? then from
    else FirstListAt(entries, from + 1)
  }

  /** What the reply must be for the code not to raise: a `questions` entry it slices. */
  predicate SelectableReply(reply: Option<Value>) {
    reply.Some? && Truthy(reply.value) && reply.value.VDict? && HasKey(reply.value.entries, "questions")
    ==> Sliceable(Find(reply.value.entries, "questions").value)
  }

  /** The question list picked out of a reply: a list reply's first five items, else the
      first five of its `questions` entry, else the first five of its first list-valued
      entry, and an empty list for anything else. */
  function SelectQuestions(reply: Option<Value>): (r: Value)
    requires SelectableReply(reply)
    ensures reply.None? || !Truthy(reply.value) || !(reply.value.VList? || reply.value.VDict?) ==> r == VList([])
    ensures reply.Some? && Truthy(reply.value) && reply.value.VList? ==>
      r == FirstFive(reply.value)
    ensures reply.Some? && reply.value.VDict? && HasKey(reply.value.entries, "questions") ==>
      r == FirstFive(Find(reply.value.entries, "questions").value)
    ensures reply.Some? && reply.value.VDict? && !HasKey(reply.value.entries, "questions") ==>
      var i := FirstListAt(reply.value.entries, 0);
      if i < |reply.value.entries| then r == FirstFive(reply.value.entries[i].1) else r == VList([])
    ensures r.VList? ==> |r.items| <= 5
  {
    if reply.None? || !Truthy(reply.value) then VList([])
    else if reply.value.VList? then FirstFive(reply.value)
    else if reply.value.VDict? && HasKey(reply.value.entries, "questions") then
      FirstFive(Find(reply.value.entries, "questions").value)
    else if reply.value.VDict? then
      var i := FirstListAt(reply.value.entries, 0);
      if i < |reply.value.entries| then FirstFive(reply.value.entries[i].1) else VList([])
    else VList([])
  }

  // ----- generate_more_questions_for_category -----

  const MoreDefault: string := "This additional question provides deeper insights"

  /** The questions made from a reply: one new question per item of a truthy reply, with
      the default explanation where an item gives none; nothing for a falsy reply. */
  function MoreQuestions(reply: Option<Value>, newId: nat -> string, base: nat): (r: seq<Value>)
    requires reply.Some? && Truthy(reply.value) ==> Iterable(reply.value)
    ensures reply.None? || !Truthy(reply.value) ==> r == []
    ensures reply.Some? && Truthy(reply.value) ==> |r| == |Items(reply.value)|
    ensures forall i :: 0 <= i < |r| ==> IsNewQuestion(r[i]) && r[i].entries[0].1 == VStr(newId(base + i))
  {
    if reply.Some? && Truthy(reply.value) then Build(Items(reply.value), base, newId, MoreDefault) else []
  }
}
