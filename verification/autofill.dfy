/** `autofill_answers_from_notes` in `modules/llm_functions.py`: one completion request per
    category of questions, whose reply maps question numbers "1", "2", ... to answers; an
    answer is written only into a question whose own answer is blank. A question list is
    first grouped into Technical, Business and Competitive and flattened back afterwards.
    The completion reply for the c-th category processed is the parameter `replies(c)`. */
module Autofill {
  import opened Text
  import opened Values
  import opened Questions

  /** A question whose `answer`, when present, is a string, so that `.strip()` can read
      it. */
  predicate Fillable(q: Value) {
    q.VDict? && StrOrAbsent(q, "answer")
  }

  /** The usable answer a reply holds for the i-th question (0-based) of its category:
      the value under the key `str(i + 1)` when the reply is a dictionary and that value
      is truthy and not the string "null". */
  function ReplyAnswer(reply: Option<Value>, i: nat): (a: Option<Value>)
    ensures a.Some? ==> reply.Some? && reply.value.VDict? && Truthy(a.value) && a.value != VStr("null")
    ensures a.Some? ==> Lookup(reply.value, NatToString(i + 1)) == a
  {
    if reply.None? || !reply.value.VDict? then None
    else match Lookup(reply.value, NatToString(i + 1))
      case None => None
      case Some(v) => if Truthy(v) && v != VStr("null") then Some(v) else None
  }

  /** One question after the merge (the code reaches it only for a `Fillable` question). */
  function FillAnswer(q: Value, a: Option<Value>): (r: Value)
    ensures r.VDict? <==> q.VDict?
  {
    if a.Some? && q.VDict? && !Answered(q) then VDict(SetKey(q.entries, "answer", a.value)) else q
  }

  /** The merge never overwrites: an answered question is unchanged, a blank one receives
      the usable answer when there is one, and no key but `answer` changes. */
  lemma FillNeverOverwrites(q: Value, a: Option<Value>)
    ensures Answered(q) || a.None? ==> FillAnswer(q, a) == q
    ensures q.VDict? && !Answered(q) && a.Some? ==> Lookup(FillAnswer(q, a), "answer") == a
    ensures forall k :: k != "answer" ==> Lookup(FillAnswer(q, a), k) == Lookup(q, k)
  {
    if a.Some? && q.VDict? && !Answered(q) {
      forall k | k != "answer" ensures Lookup(FillAnswer(q, a), k) == Lookup(q, k) {
        SetKeyOthers(q.entries, "answer", a.value, k);
      }
    }
  }

  /** The merge only writes an answer, so the bucket of a question does not change. */
  lemma FillKeepsBucket(q: Value, a: Option<Value>, show: Value -> string)
    ensures BucketOf(FillAnswer(q, a), show) == BucketOf(q, show)
  {
    FillNeverOverwrites(q, a);
    var r := FillAnswer(q, a);
    assert Get(r, "category", VStr("")) == Get(q, "category", VStr(""));
    assert Get(r, "text", VStr("")) == Get(q, "text", VStr(""));
  }

  predicate AllFillable(qs: seq<Value>) {
    forall i :: 0 <= i < |qs| ==> Fillable(qs[i])
  }

  /** Every question of a category is a dictionary: `q.get` is called on each. */
  predicate AllDicts(qs: seq<Value>) {
    forall i :: 0 <= i < |qs| ==> qs[i].VDict?
  }

  /** `.strip()` is called on the answer of a question whose reply holds a usable answer;
      an answer that is present and not a string raises `AttributeError` there. */
  predicate AnswerRaises(q: Value, a: Option<Value>) {
    a.Some? && q.VDict? && !StrOrAbsent(q, "answer")
  }

  /** A category's questions after its reply has been applied. */
  function Filled(qs: seq<Value>, reply: Option<Value>): (r: seq<Value>)
    ensures |r| == |qs|
  {
    seq(|qs|, i requires 0 <= i < |qs| => FillAnswer(qs[i], ReplyAnswer(reply, i)))
  }

  /** A category's questions when the merge has got through the first `n` of them. */
  function FilledUpTo(qs: seq<Value>, reply: Option<Value>, n: nat): (r: seq<Value>)
    requires n <= |qs|
    ensures |r| == |qs|
  {
    seq(|qs|, i requires 0 <= i < |qs| => if i < n then FillAnswer(qs[i], ReplyAnswer(reply, i)) else qs[i])
  }

  /** The first question from the i-th on at which the merge of a category raises. */
  function RaiseIndex(qs: seq<Value>, reply: Option<Value>, i: nat): (r: Option<nat>)
    requires i <= |qs|
    ensures r.Some? ==> i <= r.value < |qs| && AnswerRaises(qs[r.value], ReplyAnswer(reply, r.value))
    ensures forall j :: i <= j < |qs| && (r.None? || j < r.value) ==> !AnswerRaises(qs[j], ReplyAnswer(reply, j))
    decreases |qs| - i
  {
    if i == |qs| then None
    else if AnswerRaises(qs[i], ReplyAnswer(reply, i)) then Some(i)
    else RaiseIndex(qs, reply, i + 1)
  }

  /** The per-category loop: question i takes the answer numbered i + 1, until a question
      raises; the questions before it are merged by then. */
  method FillCategory(questions: seq<Value>, reply: Option<Value>) returns (updated: seq<Value>, raised: bool)
    requires AllDicts(questions)
    ensures raised <==> RaiseIndex(questions, reply, 0).Some?
    ensures raised ==> updated == FilledUpTo(questions, reply, RaiseIndex(questions, reply, 0).value)
    ensures !raised ==> updated == Filled(questions, reply)
  {
    updated, raised := questions, false;
    for i := 0 to |questions|
      invariant updated == FilledUpTo(questions, reply, i)
      invariant RaiseIndex(questions, reply, 0) == RaiseIndex(questions, reply, i)
    {
      var a := ReplyAnswer(reply, i);
      if a.Some? && !StrOrAbsent(updated[i], "answer") {
        raised := true;
        return;
      }
      // `FillAnswer` leaves the question as it is unless the write condition holds
      updated := updated[i := FillAnswer(updated[i], a)];
    }
    assert updated == Filled(questions, reply);
  }

  /** What the input must be for the code not to raise before any reply is applied, once
      notes and input pass the guard: a list whose dictionaries have a string or absent
      `category`, or a dictionary of lists of dictionaries (its keys are distinct, as in
      any Python dictionary). */
  predicate AutofillInput(input: Value) {
    (input.VList? && forall i :: 0 <= i < |input.items| ==>
       input.items[i].VDict? ==> StrOrAbsent(input.items[i], "category"))
    || (input.VDict? && UniqueKeys(input.entries)
        && forall c :: 0 <= c < |input.entries| ==>
             input.entries[c].1.VList? && AllDicts(input.entries[c].1.items))
  }

  /** The categories the merge works through: lists of dictionaries, for the input the
      code reads without raising. */
  function Categories(input: Value, show: Value -> string): (cs: seq<(string, Value)>)
    requires input.VList? || input.VDict?
    ensures AutofillInput(input) ==> forall c :: 0 <= c < |cs| ==> cs[c].1.VList? && AllDicts(cs[c].1.items)
  {
    if input.VList? then
      var qs := input.items;
      InBucketDicts(qs, Technical, Classifier(show), |qs|);
      InBucketDicts(qs, Business, Classifier(show), |qs|);
      InBucketDicts(qs, Competitive, Classifier(show), |qs|);
      Grouped(qs, show)
    else input.entries
  }

  /** A bucket holds only dictionaries. */
  lemma {:induction false} InBucketDicts(qs: seq<Value>, b: Bucket, bucket: Value -> Bucket, n: nat)
    requires n <= |qs|
    ensures AllDicts(InBucket(qs, b, bucket, n))
  {
    if n > 0 {
      InBucketDicts(qs, b, bucket, n - 1);
    }
  }

  /** The categories after the merge, the c-th with the reply `replies(c)`. */
  function Merged(cs: seq<(string, Value)>, replies: nat -> Option<Value>, n: nat): (r: seq<(string, Value)>)
    requires n <= |cs| && forall c :: 0 <= c < |cs| ==> cs[c].1.VList?
    ensures |r| == n
    ensures forall c :: 0 <= c < n ==> r[c] == (cs[c].0, VList(Filled(cs[c].1.items, replies(c))))
  {
    if n == 0 then [] else Merged(cs, replies, n - 1) + [(cs[n - 1].0, VList(Filled(cs[n - 1].1.items, replies(n - 1))))]
  }

  /** The lists of `cs[..n]` one after another. */
  function Flatten(cs: seq<(string, Value)>, n: nat): (r: seq<Value>)
    requires n <= |cs|
  {
    if n == 0 then [] else Flatten(cs, n - 1) + AsList(cs[n - 1].1)
  }

  /** The first question, as (category, position), at which the merge raises, among the
      categories from the c-th on. */
  function FirstRaise(cs: seq<(string, Value)>, replies: nat -> Option<Value>, c: nat): (r: Option<(nat, nat)>)
    requires c <= |cs| && forall k :: 0 <= k < |cs| ==> cs[k].1.VList?
    ensures r.Some? ==> c <= r.value.0 < |cs| && RaiseIndex(cs[r.value.0].1.items, replies(r.value.0), 0) == Some(r.value.1)
    ensures forall k :: c <= k < |cs| && (r.None? || k < r.value.0) ==> RaiseIndex(cs[k].1.items, replies(k), 0).None?
    decreases |cs| - c
  {
    if c == |cs| then None
    else match RaiseIndex(cs[c].1.items, replies(c), 0)
      case Some(i) => Some((c, i))
      case None => FirstRaise(cs, replies, c + 1)
  }

  /** The merge of `input` raises: the scan finds a question that raises. */
  predicate MergeRaises(input: Value, show: Value -> string, replies: nat -> Option<Value>)
    requires AutofillInput(input)
  {
    FirstRaise(Categories(input, show), replies, 0).Some?
  }

  /** Some category holds a question whose reply has a usable answer while its own answer
      is present and not a string. */
  ghost predicate SomeAnswerRaises(input: Value, show: Value -> string, replies: nat -> Option<Value>)
    requires AutofillInput(input)
  {
    var cs := Categories(input, show);
    exists c, i :: 0 <= c < |cs| && cs[c].1.VList? && 0 <= i < |cs[c].1.items|
                   && AnswerRaises(cs[c].1.items[i], ReplyAnswer(replies(c), i))
  }

  /** The scan finds a raising question exactly when there is one. */
  lemma FirstRaiseFinds(input: Value, show: Value -> string, replies: nat -> Option<Value>)
    requires AutofillInput(input)
    ensures MergeRaises(input, show, replies) <==> SomeAnswerRaises(input, show, replies)
  {
    var cs := Categories(input, show);
    var r := FirstRaise(cs, replies, 0);
    if r.Some? {
      var c, i := r.value.0, r.value.1;
      assert AnswerRaises(cs[c].1.items[i], ReplyAnswer(replies(c), i));
    }
  }

  /** The categories as the merge leaves them when it raises at question `i` of category
      `c`: the categories before are merged, so are the first `i` questions of category
      `c`, and the rest is untouched. */
  function MergedUpTo(cs: seq<(string, Value)>, replies: nat -> Option<Value>, c: nat, i: nat): (r: seq<(string, Value)>)
    requires c < |cs| && forall k :: 0 <= k < |cs| ==> cs[k].1.VList?
    requires i <= |cs[c].1.items|
    ensures |r| == |cs|
  {
    Merged(cs, replies, c) + [(cs[c].0, VList(FilledUpTo(cs[c].1.items, replies(c), i)))] + cs[c + 1..]
  }

  /** How a call of `autofill_answers_from_notes` ends: it returns `None` before any
      request, returns the merged questions, or raises `AttributeError` in the merge;
      `left` is then the caller's question collection as far as the merge had written
      into its dictionaries. */
  datatype Fill = Skipped | Returned(value: Value) | Raises(left: Value)

  /** `autofill_answers_from_notes(notes, input)` with the category replies given: `None`
      when the notes are blank or the input falsy; otherwise the merged categories, as a
      dictionary for dictionary input and flattened back into one list for list input;
      or the raise, when a question the reply answers holds an answer that is not a
      string. */
  function AutofillResult(notes: string, input: Value, show: Value -> string,
                          replies: nat -> Option<Value>): (r: Fill)
    requires !IsBlank(notes) && Truthy(input) ==> AutofillInput(input)
    ensures r.Skipped? <==> IsBlank(notes) || !Truthy(input)
    ensures r.Raises? <==> !IsBlank(notes) && Truthy(input) && MergeRaises(input, show, replies)
    ensures r.Returned? ==> (r.value.VList? <==> input.VList?) && (r.value.VDict? <==> input.VDict?)
    ensures r.Raises? ==> (input.VList? ==> r.left.VList? && |r.left.items| == |input.items|)
                          && (input.VDict? ==> r.left.VDict? && |r.left.entries| == |input.entries|)
  {
    if IsBlank(notes) || !Truthy(input) then Skipped
    else
      var cs := Categories(input, show);
      match FirstRaise(cs, replies, 0)
      case Some((c, i)) =>
        if input.VList? then Raises(VList(AfterFillUpTo(input.items, show, replies, c, i)))
        else Raises(VDict(MergedUpTo(cs, replies, c, i)))
      case None =>
        var merged := Merged(cs, replies, |cs|);
        if input.VList? then Returned(VList(Flatten(merged, |merged|))) else Returned(VDict(merged))
  }

  /** The loop over the categories, applying each one's reply until a question raises;
      `at` is where it raised. */
  method MergeCategories(cs: seq<(string, Value)>, replies: nat -> Option<Value>)
    returns (merged: seq<(string, Value)>, at: Option<(nat, nat)>)
    requires forall k :: 0 <= k < |cs| ==> cs[k].1.VList? && AllDicts(cs[k].1.items)
    ensures at == FirstRaise(cs, replies, 0)
    ensures at.None? ==> merged == Merged(cs, replies, |cs|)
    ensures at.Some? ==> merged == MergedUpTo(cs, replies, at.value.0, at.value.1)
  {
    merged, at := [], None;
    for c := 0 to |cs|
      invariant merged == Merged(cs, replies, c)
      invariant FirstRaise(cs, replies, 0) == FirstRaise(cs, replies, c)
    {
      var updated, raised := FillCategory(cs[c].1.items, replies(c));
      if raised {
        at := Some((c, RaiseIndex(cs[c].1.items, replies(c), 0).value));
        merged := merged + [(cs[c].0, VList(updated))] + cs[c + 1..];
        return;
      }
      merged := merged + [(cs[c].0, VList(updated))];
    }
  }

  /** The loop over the merged categories, extending the result list. */
  method FlattenCategories(merged: seq<(string, Value)>) returns (flat: seq<Value>)
    ensures flat == Flatten(merged, |merged|)
  {
    flat := [];
    for c := 0 to |merged|
      invariant flat == Flatten(merged, c)
    {
      flat := flat + AsList(merged[c].1);
    }
  }

  /** The function's body: the categories are merged, then either the merged questions are
      returned or the raise is reported with the caller's questions as far as they were
      merged. */
  method AutofillAnswers(notes: string, input: Value, show: Value -> string, replies: nat -> Option<Value>)
    returns (r: Fill)
    requires !IsBlank(notes) && Truthy(input) ==> AutofillInput(input)
    ensures r == AutofillResult(notes, input, show, replies)
  {
    StripEmptyIffBlank(notes);
    if Strip(notes) == [] || !Truthy(input) {
      return Skipped;
    }
    var cs: seq<(string, Value)>;
    if input.VList? {
      cs := Categorize(input.items, show);
    } else {
      cs := input.entries;
    }
    assert cs == Categories(input, show);
    var merged, at := MergeCategories(cs, replies);
    if at.Some? {
      if input.VList? {
        // the caller's list holds the very dictionaries the merge has written into
        return Raises(VList(AfterFillUpTo(input.items, show, replies, at.value.0, at.value.1)));
      }
      return Raises(VDict(merged));
    }
    if input.VList? {
      var flat := FlattenCategories(merged);
      r := Returned(VList(flat));
    } else {
      r := Returned(VDict(merged));
    }
  }

  // ----- List input: shape of the result and the in-place update -----

  function BucketIndex(b: Bucket): nat {
    match b
    case Technical => 0
    case Business => 1
    case Competitive => 2
  }

  /** `Filled` on a list with one more question: that question takes the next number. */
  lemma FilledAppend(xs: seq<Value>, q: Value, reply: Option<Value>)
    ensures Filled(xs + [q], reply) == Filled(xs, reply) + [FillAnswer(q, ReplyAnswer(reply, |xs|))]
  {
  }

  /** For list input the result is the Technical, then the Business, then the Competitive
      questions, each bucket merged with its own reply (non-dictionaries are dropped). */
  lemma ListResult(notes: string, input: Value, show: Value -> string, replies: nat -> Option<Value>)
    requires !IsBlank(notes) && Truthy(input) && input.VList? && AutofillInput(input)
    requires !MergeRaises(input, show, replies)
    ensures var qs, bucket := input.items, Classifier(show);
      AutofillResult(notes, input, show, replies)
      == Returned(VList(Filled(InBucket(qs, Technical, bucket, |qs|), replies(0))
                    + Filled(InBucket(qs, Business, bucket, |qs|), replies(1))
                    + Filled(InBucket(qs, Competitive, bucket, |qs|), replies(2))))
  {
    var cs := Categories(input, show);
    var merged := Merged(cs, replies, 3);
    assert Flatten(merged, 3) == Flatten(merged, 2) + AsList(merged[2].1);
    assert Flatten(merged, 2) == Flatten(merged, 1) + AsList(merged[1].1);
    assert Flatten(merged, 1) == AsList(merged[0].1);
  }

  /** The dictionary at position j of the input list after the call. The merge writes into
      the very dictionaries of the input (the category lists are shallow copies), so the
      caller's list sees every dictionary question merged, with the number it had in its
      bucket. */
  function AfterFill(qs: seq<Value>, show: Value -> string, replies: nat -> Option<Value>): (r: seq<Value>)
    ensures |r| == |qs|
  {
    seq(|qs|, j requires 0 <= j < |qs| =>
      if qs[j].VDict? then
        var b := BucketOf(qs[j], show);
        FillAnswer(qs[j], ReplyAnswer(replies(BucketIndex(b)), |InBucket(qs, b, Classifier(show), j)|))
      else qs[j])
  }

  /** The input list when the merge raises at question `i` of the bucket numbered `c`: a
      dictionary has been merged when its bucket comes before, or it comes before the
      i-th question of its own bucket `c`. */
  function AfterFillUpTo(qs: seq<Value>, show: Value -> string, replies: nat -> Option<Value>,
                         c: nat, i: nat): (r: seq<Value>)
    ensures |r| == |qs|
  {
    seq(|qs|, j requires 0 <= j < |qs| =>
      if qs[j].VDict? then
        var b := BucketOf(qs[j], show);
        var n := |InBucket(qs, b, Classifier(show), j)|;
        if BucketIndex(b) < c || (BucketIndex(b) == c && n < i)
        then FillAnswer(qs[j], ReplyAnswer(replies(BucketIndex(b)), n)) else qs[j]
      else qs[j])
  }

  /** Position j of `after` is position j of `qs` as the merge leaves it: a dictionary
      stays a dictionary in the same bucket, merged with the answer its bucket's reply
      numbers for it; anything else is untouched. */
  predicate MergedAt(qs: seq<Value>, after: seq<Value>, bucket: Value -> Bucket,
                     replies: nat -> Option<Value>, j: nat)
    requires j < |qs| && j < |after|
  {
    if qs[j].VDict? then
      after[j].VDict? && bucket(after[j]) == bucket(qs[j])
      && after[j] == FillAnswer(qs[j], ReplyAnswer(replies(BucketIndex(bucket(qs[j]))),
                                                   |InBucket(qs, bucket(qs[j]), bucket, j)|))
    else after[j] == qs[j]
  }

  lemma AfterFillMerged(qs: seq<Value>, show: Value -> string, replies: nat -> Option<Value>)
    ensures var after := AfterFill(qs, show, replies);
      forall j :: 0 <= j < |qs| ==> MergedAt(qs, after, Classifier(show), replies, j)
  {
    var after := AfterFill(qs, show, replies);
    forall j | 0 <= j < |qs| ensures MergedAt(qs, after, Classifier(show), replies, j) {
      var q := qs[j];
      if q.VDict? {
        var a := ReplyAnswer(replies(BucketIndex(BucketOf(q, show))), |InBucket(qs, BucketOf(q, show), Classifier(show), j)|);
        FillKeepsBucket(q, a, show);
      }
    }
  }

  /** Each bucket of a list merged in place is that bucket of the list before, merged. */
  lemma {:induction false} AliasedBucket(qs: seq<Value>, after: seq<Value>, bucket: Value -> Bucket,
                                         replies: nat -> Option<Value>, b: Bucket, n: nat)
    requires n <= |qs| == |after|
    requires forall j :: 0 <= j < |qs| ==> MergedAt(qs, after, bucket, replies, j)
    ensures InBucket(after, b, bucket, n) == Filled(InBucket(qs, b, bucket, n), replies(BucketIndex(b)))
  {
    if n > 0 {
      AliasedBucket(qs, after, bucket, replies, b, n - 1);
      assert MergedAt(qs, after, bucket, replies, n - 1);
      var q := qs[n - 1];
      if q.VDict? && bucket(q) == b {
        FilledAppend(InBucket(qs, b, bucket, n - 1), q, replies(BucketIndex(b)));
      }
    }
  }

  /** The list returned for list input consists of the caller's dictionaries as they are
      after the call, bucket by bucket. */
  lemma ListResultIsAliased(notes: string, input: Value, show: Value -> string, replies: nat -> Option<Value>)
    requires !IsBlank(notes) && Truthy(input) && input.VList? && AutofillInput(input)
    requires !MergeRaises(input, show, replies)
    ensures var after, bucket := AfterFill(input.items, show, replies), Classifier(show);
      AutofillResult(notes, input, show, replies)
      == Returned(VList(InBucket(after, Technical, bucket, |after|) + InBucket(after, Business, bucket, |after|)
                    + InBucket(after, Competitive, bucket, |after|)))
  {
    var qs := input.items;
    var after := AfterFill(qs, show, replies);
    ListResult(notes, input, show, replies);
    AfterFillMerged(qs, show, replies);
    AliasedBucket(qs, after, Classifier(show), replies, Technical, |qs|);
    AliasedBucket(qs, after, Classifier(show), replies, Business, |qs|);
    AliasedBucket(qs, after, Classifier(show), replies, Competitive, |qs|);
  }
}
