/** `auto_populate_answers` in `modules/sales_functions.py`: the meeting notes are merged
    into the main discovery questions, into the question list of each suggested initiative
    and into the custom initiative questions, and a notice reports how many answers were
    gained. Each merge is `autofill_answers_from_notes`, with its completion replies given
    as parameters. */
module AutoPopulate {
  import opened Text
  import opened Values
  import opened SessionStore
  import opened Questions
  import opened Autofill
  import LlmPost
  import Sales

  // ----- Counting answered questions -----

  /** `len([q for q in v if isinstance(q, dict) and q.get('answer', '').strip()])`:
      the count the code takes of a collection, iterating it as Python does. */
  function FilledCount(v: Value): nat
    requires LlmPost.Iterable(v)
  {
    |Sales.Answers(LlmPost.Items(v))|
  }

  /** The answered questions of a list with one more element. */
  lemma AnswersSnoc(xs: seq<Value>, x: Value)
    ensures Sales.Answers(xs + [x]) == Sales.Answers(xs) + (if Answered(x) then [x] else [])
  {
    assert (xs + [x])[..|xs|] == xs;
  }

  /** Counting the answered questions of two lists one after the other adds their counts. */
  lemma {:induction false} AnswersAppend(xs: seq<Value>, ys: seq<Value>)
    ensures |Sales.Answers(xs + ys)| == |Sales.Answers(xs)| + |Sales.Answers(ys)|
    decreases |ys|
  {
    if ys == [] {
      assert xs + ys == xs;
    } else {
      var init, y := ys[..|ys| - 1], ys[|ys| - 1];
      assert ys == init + [y];
      assert xs + ys == (xs + init) + [y];
      AnswersAppend(xs, init);
      AnswersSnoc(xs + init, y);
      AnswersSnoc(init, y);
    }
  }

  /** The three buckets of a list hold all of its answered questions between them: only
      a dictionary can be answered, and each dictionary goes to exactly one bucket. */
  lemma {:induction false} BucketsCount(qs: seq<Value>, bucket: Value -> Bucket, n: nat)
    requires n <= |qs|
    ensures |Sales.Answers(InBucket(qs, Technical, bucket, n))|
          + |Sales.Answers(InBucket(qs, Business, bucket, n))|
          + |Sales.Answers(InBucket(qs, Competitive, bucket, n))|
          == |Sales.Answers(qs[..n])|
  {
    if n > 0 {
      BucketsCount(qs, bucket, n - 1);
      var q := qs[n - 1];
      var one := if Answered(q) then 1 else 0;
      AnswersPrefix(qs, n);
      OneBucket(q, bucket);
      BucketStep(qs, Technical, bucket, n);
      BucketStep(qs, Business, bucket, n);
      BucketStep(qs, Competitive, bucket, n);
      SplitSum(|Sales.Answers(InBucket(qs, Technical, bucket, n - 1))|,
               |Sales.Answers(InBucket(qs, Business, bucket, n - 1))|,
               |Sales.Answers(InBucket(qs, Competitive, bucket, n - 1))|,
               |Sales.Answers(qs[..n - 1])|,
               if bucket(q) == Technical && Answered(q) then 1 else 0,
               if bucket(q) == Business && Answered(q) then 1 else 0,
               if bucket(q) == Competitive && Answered(q) then 1 else 0, one);
    }
  }

  /** The answered questions of `qs[..n]` are those of `qs[..n - 1]` and possibly its last. */
  lemma AnswersPrefix(qs: seq<Value>, n: nat)
    requires 0 < n <= |qs|
    ensures |Sales.Answers(qs[..n])| == |Sales.Answers(qs[..n - 1])| + (if Answered(qs[n - 1]) then 1 else 0)
  {
    assert qs[..n][..n - 1] == qs[..n - 1];
  }

  /** An answered question lands in exactly one of the three buckets. */
  lemma OneBucket(q: Value, bucket: Value -> Bucket)
    ensures (if bucket(q) == Technical && Answered(q) then 1 else 0)
          + (if bucket(q) == Business && Answered(q) then 1 else 0)
          + (if bucket(q) == Competitive && Answered(q) then 1 else 0)
         == (if Answered(q) then 1 else 0)
  {
  }

  /** A split that holds before one more element, and the element's share in each part,
      give the split after it. */
  lemma SplitSum(t: int, b: int, c: int, a: int, dt: int, db: int, dc: int, d: int)
    requires t + b + c == a && dt + db + dc == d
    ensures (t + dt) + (b + db) + (c + dc) == a + d
  {
  }

  /** One more element adds to a bucket's answered questions only when it is an answered
      question of that bucket. */
  lemma BucketStep(qs: seq<Value>, b: Bucket, bucket: Value -> Bucket, n: nat)
    requires 0 < n <= |qs|
    ensures |Sales.Answers(InBucket(qs, b, bucket, n))|
         == |Sales.Answers(InBucket(qs, b, bucket, n - 1))|
            + (if bucket(qs[n - 1]) == b && Answered(qs[n - 1]) then 1 else 0)
  {
    var q := qs[n - 1];
    if q.VDict? && bucket(q) == b {
      AnswersSnoc(InBucket(qs, b, bucket, n - 1), q);
    }
  }

  /** Merging a reply into a list never loses an answered question. */
  lemma {:induction false} FilledKeepsAnswers(xs: seq<Value>, reply: Option<Value>)
    ensures |Sales.Answers(Filled(xs, reply))| >= |Sales.Answers(xs)|
    decreases |xs|
  {
    if xs != [] {
      var init, q := xs[..|xs| - 1], xs[|xs| - 1];
      assert xs == init + [q];
      FilledKeepsAnswers(init, reply);
      FilledAppend(init, q, reply);
      AnswersSnoc(init, q);
      var a := ReplyAnswer(reply, |init|);
      AnswersSnoc(Filled(init, reply), FillAnswer(q, a));
      FillNeverOverwrites(q, a);
    }
  }

  /** Without a reply the merge changes nothing. */
  lemma FilledWithoutReply(xs: seq<Value>)
    ensures Filled(xs, None) == xs
  {
    forall i | 0 <= i < |xs| ensures Filled(xs, None)[i] == xs[i] {
      FillNeverOverwrites(xs[i], None);
    }
  }

  /** The answered questions of the category lists `entries[..n]`. */
  function ListsTotal(entries: seq<(string, Value)>, n: nat): nat
    requires n <= |entries|
  {
    if n == 0 then 0 else ListsTotal(entries, n - 1) + |Sales.Answers(AsList(entries[n - 1].1))|
  }

  /** The answered questions of a question list, or of all category lists of a
      dictionary. */
  function AnsweredTotal(v: Value): nat {
    if v.VList? then |Sales.Answers(v.items)|
    else if v.VDict? then ListsTotal(v.entries, |v.entries|)
    else 0
  }

  lemma {:induction false} ListsTotalMonotone(a: seq<(string, Value)>, b: seq<(string, Value)>, n: nat)
    requires n <= |a| && n <= |b|
    requires forall c :: 0 <= c < n ==> |Sales.Answers(AsList(a[c].1))| >= |Sales.Answers(AsList(b[c].1))|
    ensures ListsTotal(a, n) >= ListsTotal(b, n)
  {
    if n > 0 {
      ListsTotalMonotone(a, b, n - 1);
    }
  }

  lemma {:induction false} ListsTotalSame(a: seq<(string, Value)>, b: seq<(string, Value)>, n: nat)
    requires n <= |a| && n <= |b|
    requires forall c :: 0 <= c < n ==> AsList(a[c].1) == AsList(b[c].1)
    ensures ListsTotal(a, n) == ListsTotal(b, n)
  {
    if n > 0 {
      ListsTotalSame(a, b, n - 1);
    }
  }

  /** The merge never loses an answer: its result holds at least as many answered
      questions as its input. */
  lemma AutofillKeepsAnswers(notes: string, input: Value, show: Value -> string,
                             replies: nat -> Option<Value>)
    requires !IsBlank(notes) && Truthy(input) && AutofillInput(input)
    requires !MergeRaises(input, show, replies)
    ensures AnsweredTotal(AutofillResult(notes, input, show, replies).value) >= AnsweredTotal(input)
  {
    if input.VList? {
      var qs, bucket := input.items, Classifier(show);
      ListResult(notes, input, show, replies);
      var t := InBucket(qs, Technical, bucket, |qs|);
      var b := InBucket(qs, Business, bucket, |qs|);
      var c := InBucket(qs, Competitive, bucket, |qs|);
      AnswersAppend(Filled(t, replies(0)) + Filled(b, replies(1)), Filled(c, replies(2)));
      AnswersAppend(Filled(t, replies(0)), Filled(b, replies(1)));
      FilledKeepsAnswers(t, replies(0));
      FilledKeepsAnswers(b, replies(1));
      FilledKeepsAnswers(c, replies(2));
      BucketsCount(qs, bucket, |qs|);
      assert qs[..|qs|] == qs;
    } else {
      var cs := input.entries;
      var merged := Merged(cs, replies, |cs|);
      forall i | 0 <= i < |cs|
        ensures |Sales.Answers(AsList(merged[i].1))| >= |Sales.Answers(AsList(cs[i].1))|
      {
        FilledKeepsAnswers(cs[i].1.items, replies(i));
      }
      ListsTotalMonotone(merged, cs, |cs|);
    }
  }

  /** A list whose questions stay answered wherever they were answered holds at least as
      many answered questions. */
  lemma {:induction false} PointwiseAnswers(xs: seq<Value>, ys: seq<Value>)
    requires |xs| == |ys| && forall j :: 0 <= j < |xs| ==> Answered(xs[j]) ==> Answered(ys[j])
    ensures |Sales.Answers(ys)| >= |Sales.Answers(xs)|
    decreases |xs|
  {
    if xs != [] {
      var n := |xs| - 1;
      PointwiseAnswers(xs[..n], ys[..n]);
    }
  }

  /** A merge that raised loses no answer either: every question it had written into was
      blank, and the rest are as they were. */
  lemma RaisedKeepsAnswers(notes: string, input: Value, show: Value -> string,
                           replies: nat -> Option<Value>)
    requires !IsBlank(notes) && Truthy(input) && AutofillInput(input)
    requires MergeRaises(input, show, replies)
    ensures AnsweredTotal(AutofillResult(notes, input, show, replies).left) >= AnsweredTotal(input)
  {
    var cs := Categories(input, show);
    var at := FirstRaise(cs, replies, 0).value;
    if input.VList? {
      AfterFillUpToKeepsAnswers(input.items, show, replies, at.0, at.1);
    } else {
      MergedUpToKeepsAnswers(cs, replies, at.0, at.1);
    }
  }

  lemma AfterFillUpToKeepsAnswers(qs: seq<Value>, show: Value -> string, replies: nat -> Option<Value>,
                                  c: nat, i: nat)
    ensures |Sales.Answers(AfterFillUpTo(qs, show, replies, c, i))| >= |Sales.Answers(qs)|
  {
    var after := AfterFillUpTo(qs, show, replies, c, i);
    forall j | 0 <= j < |qs| && Answered(qs[j]) ensures Answered(after[j]) {
      var b := BucketOf(qs[j], show);
      FillNeverOverwrites(qs[j], ReplyAnswer(replies(BucketIndex(b)), |InBucket(qs, b, Classifier(show), j)|));
    }
    PointwiseAnswers(qs, after);
  }

  lemma MergedUpToKeepsAnswers(cs: seq<(string, Value)>, replies: nat -> Option<Value>, c: nat, i: nat)
    requires c < |cs| && forall k :: 0 <= k < |cs| ==> cs[k].1.VList?
    requires i <= |cs[c].1.items|
    ensures ListsTotal(MergedUpTo(cs, replies, c, i), |cs|) >= ListsTotal(cs, |cs|)
  {
    var after := MergedUpTo(cs, replies, c, i);
    forall k | 0 <= k < |cs|
      ensures |Sales.Answers(AsList(after[k].1))| >= |Sales.Answers(AsList(cs[k].1))|
    {
      var qs := cs[k].1.items;
      if k < c {
        assert after[k] == Merged(cs, replies, c)[k];
        FilledKeepsAnswers(qs, replies(k));
      } else if k == c {
        FilledUpToKeepsAnswers(qs, replies(k), i);
      } else {
        assert after[k] == cs[k];
      }
    }
    ListsTotalMonotone(after, cs, |cs|);
  }

  lemma FilledUpToKeepsAnswers(qs: seq<Value>, reply: Option<Value>, n: nat)
    requires n <= |qs|
    ensures |Sales.Answers(FilledUpTo(qs, reply, n))| >= |Sales.Answers(qs)|
  {
    var up := FilledUpTo(qs, reply, n);
    forall j | 0 <= j < |qs| && Answered(qs[j]) ensures Answered(up[j]) {
      FillNeverOverwrites(qs[j], ReplyAnswer(reply, j));
    }
    PointwiseAnswers(qs, up);
  }

  /** With no usable reply the merge gains nothing: the result holds exactly as many
      answered questions as the input, although a list comes back regrouped. */
  lemma AutofillWithoutRepliesGainsNothing(notes: string, input: Value, show: Value -> string,
                                           replies: nat -> Option<Value>)
    requires !IsBlank(notes) && Truthy(input) && AutofillInput(input)
    requires forall c :: replies(c).None?
    ensures var r := AutofillResult(notes, input, show, replies);
      r.Returned? && AnsweredTotal(r.value) == AnsweredTotal(input)
  {
    assert !SomeAnswerRaises(input, show, replies) by {
      var cs := Categories(input, show);
      forall c, i | 0 <= c < |cs| && cs[c].1.VList? && 0 <= i < |cs[c].1.items|
        ensures !AnswerRaises(cs[c].1.items[i], ReplyAnswer(replies(c), i))
      {
        assert replies(c).None?;
      }
    }
    FirstRaiseFinds(input, show, replies);
    if input.VList? {
      var qs, bucket := input.items, Classifier(show);
      ListResult(notes, input, show, replies);
      var t := InBucket(qs, Technical, bucket, |qs|);
      var b := InBucket(qs, Business, bucket, |qs|);
      var c := InBucket(qs, Competitive, bucket, |qs|);
      assert replies(0) == None && replies(1) == None && replies(2) == None;
      FilledWithoutReply(t);
      FilledWithoutReply(b);
      FilledWithoutReply(c);
      AnswersAppend(t + b, c);
      AnswersAppend(t, b);
      BucketsCount(qs, bucket, |qs|);
      assert qs[..|qs|] == qs;
    } else {
      var cs := input.entries;
      var merged := Merged(cs, replies, |cs|);
      forall i | 0 <= i < |cs| ensures AsList(merged[i].1) == AsList(cs[i].1) {
        assert replies(i) == None;
        FilledWithoutReply(cs[i].1.items);
      }
      ListsTotalSame(merged, cs, |cs|);
    }
  }

  /** The answers one merge gains, counted before and after the call. */
  function Gained(notes: string, input: Value, show: Value -> string, replies: nat -> Option<Value>): nat
    requires !IsBlank(notes) && Truthy(input) && AutofillInput(input)
    requires !MergeRaises(input, show, replies)
  {
    AutofillKeepsAnswers(notes, input, show, replies);
    AnsweredTotal(AutofillResult(notes, input, show, replies).value) - AnsweredTotal(input)
  }

  // ----- The count as written -----

  /** What the caller's variable shows once the call has returned. The merge writes into
      the caller's own question dictionaries, so a list shows them merged; a dictionary is
      iterated by its keys, which the call does not change. */
  function CallerViewAfter(input: Value, show: Value -> string, replies: nat -> Option<Value>): (r: Value)
    requires input.VList? || input.VDict?
    ensures LlmPost.Iterable(r)
  {
    if input.VList? then VList(AfterFill(input.items, show, replies)) else input
  }

  /** Every dictionary of `qs[..n]` lands in the bucket its classifier names. */
  lemma {:induction false} InBucketHolds(qs: seq<Value>, bucket: Value -> Bucket, n: nat, j: nat)
    requires j < n <= |qs| && qs[j].VDict?
    ensures qs[j] in InBucket(qs, bucket(qs[j]), bucket, n)
  {
    if j < n - 1 {
      InBucketHolds(qs, bucket, n - 1, j);
    }
  }

  /** The caller's view holds the dictionaries of the result, so counting it raises only
      when counting the result, which the source does first, has raised already. */
  lemma CallerViewCountable(notes: string, input: Value, show: Value -> string, replies: nat -> Option<Value>)
    requires !IsBlank(notes) && Truthy(input) && AutofillInput(input)
    requires !MergeRaises(input, show, replies)
    requires CountReadable(AutofillResult(notes, input, show, replies).value)
    ensures CountReadable(CallerViewAfter(input, show, replies))
  {
    if input.VList? {
      var after, bucket := AfterFill(input.items, show, replies), Classifier(show);
      ListResultIsAliased(notes, input, show, replies);
      var result := AutofillResult(notes, input, show, replies).value.items;
      forall i | 0 <= i < |after| && after[i].VDict?
        ensures StrOrAbsent(after[i], "answer")
      {
        InBucketHolds(after, bucket, |after|, i);
        assert after[i] in result;
        var k :| 0 <= k < |result| && result[k] == after[i];
      }
    }
  }

  /** `max(0, new_filled - orig_filled)` as written: both counts are taken after the call,
      and a dictionary of categories is counted by its keys. */
  function GainedAsWritten(notes: string, input: Value, show: Value -> string,
                           replies: nat -> Option<Value>): nat
    requires !IsBlank(notes) && Truthy(input) && AutofillInput(input)
    requires !MergeRaises(input, show, replies)
  {
    var result := AutofillResult(notes, input, show, replies).value;
    var newFilled := FilledCount(result);
    var origFilled := FilledCount(CallerViewAfter(input, show, replies));
    if newFilled > origFilled then newFilled - origFilled else 0
  }

  /** A dictionary iterates as its keys, which are strings, so none of them counts. */
  lemma DictCountsNothing(v: Value)
    requires v.VDict?
    ensures FilledCount(v) == 0
  {
    Sales.AnswersSpec(LlmPost.Items(v));
  }

  /** As written, every merge is credited with no answer at all. */
  lemma GainedAsWrittenIsZero(notes: string, input: Value, show: Value -> string,
                              replies: nat -> Option<Value>)
    requires !IsBlank(notes) && Truthy(input) && AutofillInput(input)
    requires !MergeRaises(input, show, replies)
    ensures GainedAsWritten(notes, input, show, replies) == 0
  {
    var result := AutofillResult(notes, input, show, replies).value;
    if input.VList? {
      var after, bucket := AfterFill(input.items, show, replies), Classifier(show);
      ListResultIsAliased(notes, input, show, replies);
      var t := InBucket(after, Technical, bucket, |after|);
      var b := InBucket(after, Business, bucket, |after|);
      var c := InBucket(after, Competitive, bucket, |after|);
      assert result == VList(t + b + c);
      AnswersAppend(t + b, c);
      AnswersAppend(t, b);
      BucketsCount(after, bucket, |after|);
      assert after[..|after|] == after;
    } else {
      DictCountsNothing(result);
      DictCountsNothing(input);
    }
  }

  /** A one-question category with a blank answer, and the reply that fills it. */
  const BlankCategory := VDict([("Technical", VList([VDict([("answer", VStr(""))])]))])
  const FillingReply := VDict([("1", VStr("yes"))])

  /** The merge of `BlankCategory` with `FillingReply` answers its question. */
  lemma BlankCategoryMerged(show: Value -> string, replies: nat -> Option<Value>)
    requires replies(0) == Some(FillingReply)
    ensures !IsBlank("notes") && AutofillInput(BlankCategory)
    ensures AutofillResult("notes", BlankCategory, show, replies).Returned?
    ensures var merged := AutofillResult("notes", BlankCategory, show, replies).value;
      merged.VDict? && |merged.entries| == 1 && Answered(AsList(merged.entries[0].1)[0])
      && |AsList(merged.entries[0].1)| == 1
  {
    var q := VDict([("answer", VStr(""))]);
    assert !IsBlank("notes") by { assert !IsSpace("notes"[0]); }
    assert !Answered(q) by { assert IsBlank(""); }
    assert AutofillInput(BlankCategory);
    assert !MergeRaises(BlankCategory, show, replies) by {
      assert StrOrAbsent(q, "answer");
    }
    FillNeverOverwrites(q, Some(VStr("yes")));
    assert ReplyAnswer(replies(0), 0) == Some(VStr("yes")) by {
      assert NatToString(1) == "1";
    }
    var filled := FillAnswer(q, Some(VStr("yes")));
    assert Answered(filled) by { assert !IsSpace("yes"[0]); }
    var merged := Merged(BlankCategory.entries, replies, 1);
    assert AsList(merged[0].1) == Filled([q], replies(0));
    assert AutofillResult("notes", BlankCategory, show, replies) == Returned(VDict(merged));
  }

  /** A merge that fills a blank question from its reply: as written it is still
      credited with nothing, while it gains one answer. */
  lemma GainedAsWrittenExample(show: Value -> string, replies: nat -> Option<Value>)
    requires replies(0) == Some(FillingReply)
    ensures !IsBlank("notes") && AutofillInput(BlankCategory) && !MergeRaises(BlankCategory, show, replies)
    ensures GainedAsWritten("notes", BlankCategory, show, replies) == 0
    ensures Gained("notes", BlankCategory, show, replies) == 1
  {
    BlankCategoryMerged(show, replies);
    GainedAsWrittenIsZero("notes", BlankCategory, show, replies);
    assert AnsweredTotal(AutofillResult("notes", BlankCategory, show, replies).value) == 1 by {
      MergedCategoryTotal(show, replies);
    }
    assert AnsweredTotal(BlankCategory) == 0 by {
      var q := VDict([("answer", VStr(""))]);
      AnswersSnoc([], q);
      assert !Answered(q) by { assert IsBlank(""); }
      assert ListsTotal(BlankCategory.entries, 0) == 0;
    }
  }

  lemma MergedCategoryTotal(show: Value -> string, replies: nat -> Option<Value>)
    requires replies(0) == Some(FillingReply)
    ensures !IsBlank("notes") && AutofillInput(BlankCategory)
    ensures AutofillResult("notes", BlankCategory, show, replies).Returned?
    ensures AnsweredTotal(AutofillResult("notes", BlankCategory, show, replies).value) == 1
  {
    BlankCategoryMerged(show, replies);
    var merged := AutofillResult("notes", BlankCategory, show, replies).value;
    var list := AsList(merged.entries[0].1);
    assert list == [] + [list[0]];
    AnswersSnoc([], list[0]);
    assert ListsTotal(merged.entries, 0) == 0;
  }

  /** A category whose one question holds `None` as its answer. */
  const NoneAnswered := VDict([("Technical", VList([VDict([("text", VStr("q")), ("answer", VNone)])]))])

  /** With a reply that answers nothing, the merge of `NoneAnswered` returns: `.strip()`
      is reached only for a question the reply answers. */
  lemma NoneAnswerUnreplied(show: Value -> string, replies: nat -> Option<Value>)
    requires replies(0) == Some(VDict([]))
    ensures !IsBlank("n") && AutofillInput(NoneAnswered)
    ensures AutofillResult("n", NoneAnswered, show, replies).Returned?
  {
    assert !IsBlank("n") by { assert !IsSpace("n"[0]); }
    assert AutofillInput(NoneAnswered);
    assert ReplyAnswer(replies(0), 0).None?;
  }

  /** With a reply that answers its question, the same merge raises. */
  lemma NoneAnswerReplied(show: Value -> string, replies: nat -> Option<Value>)
    requires replies(0) == Some(FillingReply)
    ensures !IsBlank("n") && AutofillInput(NoneAnswered)
    ensures AutofillResult("n", NoneAnswered, show, replies).Raises?
  {
    assert !IsBlank("n") by { assert !IsSpace("n"[0]); }
    assert AutofillInput(NoneAnswered);
    assert ReplyAnswer(replies(0), 0) == Some(VStr("yes")) by {
      assert NatToString(1) == "1";
    }
    var qs := NoneAnswered.entries[0].1.items;
    assert !StrOrAbsent(qs[0], "answer");
    assert RaiseIndex(qs, replies(0), 0) == Some(0);
    assert FirstRaise(NoneAnswered.entries, replies, 0) == Some((0, 0));
  }

  // ----- The session operation -----

  const InitiativePrefix := "initiative_questions_"
  const CustomKey := "custom_initiative_questions"

  /** `f"initiative_questions_{i}"`: where the questions of the i-th suggested initiative
      are kept. */
  function InitiativeKey(i: nat): (k: string)
    ensures StartsWith(k, InitiativePrefix)
  {
    InitiativePrefix + NatToString(i)
  }

  lemma InitiativeKeysDistinct(i: nat)
    ensures forall j: nat :: j != i ==> InitiativeKey(j) != InitiativeKey(i)
  {
    forall j: nat | InitiativeKey(j) == InitiativeKey(i) ensures j == i {
      assert InitiativeKey(j)[|InitiativePrefix|..] == NatToString(j);
      assert InitiativeKey(i)[|InitiativePrefix|..] == NatToString(i);
      NatToStringInjective(j, i);
    }
  }

  /** The merge can read what is stored under `key` whenever it is called on it. */
  predicate Readable(m: map<string, Value>, key: string) {
    key in m && Truthy(m[key]) ==> AutofillInput(m[key])
  }

  /** `st.session_state.get('notes_content', '')` */
  function NotesOf(m: map<string, Value>): string {
    AsStr(GetOr(m, "notes_content", VStr("")))
  }

  /** The number of suggested initiatives: the length of the list under
      `suggested_initiatives` in the company summary, when both are what the code expects. */
  function InitiativeCount(m: map<string, Value>): nat {
    match Lookup(GetOr(m, "company_summary_data", VDict([])), "suggested_initiatives")
    case Some(VList(items)) => |items|
    case _ => 0
  }

  predicate InitiativesReadable(m: map<string, Value>, n: nat) {
    forall i: nat :: i < n ==> Readable(m, InitiativeKey(i))
  }

  /** What the code demands of the store: string notes and, once the notes are not blank,
      question collections the merge can read. */
  predicate Populatable(m: map<string, Value>) {
    ("notes_content" in m ==> m["notes_content"].VStr?)
    && (!IsBlank(NotesOf(m)) ==>
          Readable(m, "questions") && InitiativesReadable(m, InitiativeCount(m)) && Readable(m, CustomKey))
  }

  /** `[q for q in v if isinstance(q, dict) and q.get('answer', '').strip()]` runs without
      raising: iterating a list reaches every dictionary's `answer`, which must then be a
      string or absent; a dictionary of categories iterates as its keys and never raises. */
  predicate CountReadable(v: Value) {
    v.VList? ==> forall i :: 0 <= i < |v.items| ==> v.items[i].VDict? ==> StrOrAbsent(v.items[i], "answer")
  }

  /** The session store, as the passes below see it. */
  type Store = map<string, Value>

  /** One section's pass: the store, the answers gained, whether a result was stored, and
      whether counting the stored result raised. */
  datatype Pass<S> = Pass(state: S, gained: nat, stored: bool, raised: bool)

  /** One section of `auto_populate_answers`: a truthy collection under `key` is merged
      with the notes, a truthy result replaces it, and the answers it gained are counted.
      A reply answer that is not a string is written as it is, and counting a stored list
      then raises `AttributeError` on `.strip()`, after the store. When the merge itself
      raises, nothing is stored, but the dictionaries merged so far are the stored ones.
      Only `key` changes. */
  function FillStored(m: map<string, Value>, key: string, notes: string, show: Value -> string,
                      replies: nat -> Option<Value>): (p: Pass<Store>)
    requires !IsBlank(notes) && Readable(m, key)
    ensures p.state.Keys == m.Keys
    ensures forall k :: k in m && k != key ==> p.state[k] == m[k]
    ensures !p.stored && !p.raised ==> p.state == m && p.gained == 0
    ensures p.stored || p.raised ==> key in m && Truthy(m[key])
    ensures p.stored ==> (p.raised <==> !CountReadable(p.state[key]))
    ensures p.raised && !p.stored <==> key in m && Truthy(m[key]) && MergeRaises(m[key], show, replies)
    ensures p.raised ==> p.gained == 0
  {
    var v := GetOr(m, key, VList([]));
    if !Truthy(v) then Pass(m, 0, false, false)
    else
      var run := AutofillResult(notes, v, show, replies);
      if run.Raises? then Pass(m[key := run.left], 0, false, true)
      else
        var updated := run.value;
        if !Truthy(updated) then Pass(m, 0, false, false)
        else if !CountReadable(updated) then Pass(m[key := updated], 0, true, true)
        else Pass(m[key := updated], Gained(notes, v, show, replies), true, false)
  }

  /** The passes over the questions of the first `n` initiatives, with the answers they
      gained between them and whether one of them raised; no pass runs after one that
      raised. Only initiative keys below `n` change. */
  function FillInitiatives(m: map<string, Value>, notes: string, show: Value -> string,
                           replies: nat -> nat -> Option<Value>, n: nat): (r: (map<string, Value>, nat, bool))
    requires !IsBlank(notes) && InitiativesReadable(m, n)
    ensures forall j: nat :: n <= j ==>
              (InitiativeKey(j) in r.0 <==> InitiativeKey(j) in m)
              && (InitiativeKey(j) in m ==> r.0[InitiativeKey(j)] == m[InitiativeKey(j)])
    decreases n, 0
  {
    if n == 0 then (m, 0, false) else InitiativePass(m, notes, show, replies, n - 1)
  }

  /** The passes up to initiative `i`, followed by its own pass unless one before raised. */
  function InitiativePass(m: map<string, Value>, notes: string, show: Value -> string,
                         replies: nat -> nat -> Option<Value>, i: nat): (r: (map<string, Value>, nat, bool))
    requires !IsBlank(notes) && InitiativesReadable(m, i + 1)
    ensures forall j: nat :: i < j ==>
              (InitiativeKey(j) in r.0 <==> InitiativeKey(j) in m)
              && (InitiativeKey(j) in m ==> r.0[InitiativeKey(j)] == m[InitiativeKey(j)])
    decreases i, 1
  {
    var prev := FillInitiatives(m, notes, show, replies, i);
    if prev.2 then prev
    else
      InitiativeKeysDistinct(i);
      Advance(prev, FillStored(prev.0, InitiativeKey(i), notes, show, replies(i)))
  }

  /** The passes over the initiatives keep the store's keys and change none outside the
      initiative questions. */
  lemma {:induction false} FillInitiativesFrame(m: map<string, Value>, notes: string, show: Value -> string,
                                                replies: nat -> nat -> Option<Value>, n: nat)
    requires !IsBlank(notes) && InitiativesReadable(m, n)
    ensures var r := FillInitiatives(m, notes, show, replies, n);
      r.0.Keys == m.Keys && forall k :: k in m && !StartsWith(k, InitiativePrefix) ==> r.0[k] == m[k]
  {
    if n > 0 {
      FillInitiativesFrame(m, notes, show, replies, n - 1);
      var prev := FillInitiatives(m, notes, show, replies, n - 1);
      if !prev.2 {
        var key := InitiativeKey(n - 1);
        assert StartsWith(key, InitiativePrefix);
        assert forall k :: k in m && !StartsWith(k, InitiativePrefix) ==> k != key;
      }
    }
  }

  /** Whether any of `initiative_questions_0` .. `initiative_questions_{n-1}` is truthy. */
  predicate AnyInitiativeQuestions(m: map<string, Value>, n: nat) {
    n > 0 && (AnyInitiativeQuestions(m, n - 1) || Truthy(GetOr(m, InitiativeKey(n - 1), VNone)))
  }

  const NoNotesWarning := "Please add meeting notes first."
  const NoQuestionsWarning := "No discovery questions found."
  const NothingPopulatedWarning := "Could not auto-populate answers. Please review manually."

  /** The message shown at the end: success with the number of answers gained, an
      acknowledgement, or a warning; or, when counting a stored result raised, the
      uncaught exception in place of any message. */
  datatype Notice = Success(filled: nat) | Info | Warning(message: string) | Raised

  /** The closing message: success when answers were gained; otherwise an acknowledgement
      when the main questions were stored or any of the first ten initiative lists or the
      custom list is non-empty; otherwise a warning. */
  function NoticeFor(total: nat, mainStored: bool, m: map<string, Value>): (n: Notice)
    ensures n.Success? <==> total > 0
    ensures n.Success? ==> n.filled == total
  {
    if total > 0 then Success(total)
    else if mainStored || AnyInitiativeQuestions(m, 10) || Truthy(GetOr(m, CustomKey, VNone)) then Info
    else Warning(NothingPopulatedWarning)
  }

  datatype Outcome<S> = Outcome(state: S, notice: Notice, gained: nat)

  /** The stored question collections the merge can read, with notes that are not blank. */
  predicate SectionsReadable(m: map<string, Value>, notes: string) {
    !IsBlank(notes) && Readable(m, "questions") && InitiativesReadable(m, InitiativeCount(m))
    && Readable(m, CustomKey)
  }

  /** Where the merge stands between sections: the store, the answers gained so far,
      whether the main questions were stored, and whether a count has raised. */
  datatype Progress<S> = Progress(state: S, total: nat, mainStored: bool, raised: bool)

  /** The pass over the main questions. Only `questions` changes. */
  function MainPass(m: map<string, Value>, notes: string, show: Value -> string,
                    replies: nat -> Option<Value>): (p: Progress<Store>)
    requires SectionsReadable(m, notes)
    ensures p.state.Keys == m.Keys
    ensures forall k :: k in m && k != "questions" ==> p.state[k] == m[k]
    ensures InitiativesReadable(p.state, InitiativeCount(p.state)) && Readable(p.state, CustomKey)
  {
    var main := FillStored(m, "questions", notes, show, replies);
    assert GetOr(main.state, "company_summary_data", VDict([])) == GetOr(m, "company_summary_data", VDict([]));
    Progress(main.state, main.gained, main.stored, main.raised)
  }

  /** The passes over the initiatives' questions, skipped once a count has raised. Only
      initiative keys change. */
  function InitiativesPass(p: Progress<Store>, notes: string, show: Value -> string,
                           replies: nat -> nat -> Option<Value>): (q: Progress<Store>)
    requires !IsBlank(notes) && InitiativesReadable(p.state, InitiativeCount(p.state))
    requires Readable(p.state, CustomKey)
    ensures q.state.Keys == p.state.Keys && q.mainStored == p.mainStored
    ensures forall k :: k in p.state && !StartsWith(k, InitiativePrefix) ==> q.state[k] == p.state[k]
    ensures Readable(q.state, CustomKey)
    ensures p.raised ==> q == p
  {
    if p.raised then p
    else
      var r := FillInitiatives(p.state, notes, show, replies, InitiativeCount(p.state));
      FillInitiativesFrame(p.state, notes, show, replies, InitiativeCount(p.state));
      assert CustomKey[0] != InitiativePrefix[0];
      Progress(r.0, p.total + r.1, p.mainStored, r.2)
  }

  /** The pass over the custom questions, skipped once a count has raised. Only their key
      changes. */
  function CustomPass(p: Progress<Store>, notes: string, show: Value -> string,
                      replies: nat -> Option<Value>): (q: Progress<Store>)
    requires !IsBlank(notes) && Readable(p.state, CustomKey)
    ensures q.state.Keys == p.state.Keys && q.mainStored == p.mainStored
    ensures forall k :: k in p.state && k != CustomKey ==> q.state[k] == p.state[k]
    ensures p.raised ==> q == p
  {
    if p.raised then p
    else
      var c := FillStored(p.state, CustomKey, notes, show, replies);
      Progress(c.state, p.total + c.gained, p.mainStored, c.raised)
  }

  /** The three kinds of section merged in turn: the main questions, each initiative's
      questions and the custom questions; the notice reports the answers gained. Only
      those keys change. */
  function Sections(m: map<string, Value>, notes: string, show: Value -> string,
                    mainReplies: nat -> Option<Value>, initiativeReplies: nat -> nat -> Option<Value>,
                    customReplies: nat -> Option<Value>): (r: Outcome<Store>)
    requires SectionsReadable(m, notes)
    ensures r.state.Keys == m.Keys
    ensures forall k :: k in m && k != "questions" && k != CustomKey && !StartsWith(k, InitiativePrefix)
              ==> r.state[k] == m[k]
    ensures var main := FillStored(m, "questions", notes, show, mainReplies);
      main.raised ==> r.notice == Raised && r.state == main.state
  {
    var p := CustomPass(InitiativesPass(MainPass(m, notes, show, mainReplies), notes, show, initiativeReplies),
                        notes, show, customReplies);
    if p.raised then Outcome(p.state, Raised, p.total)
    else Outcome(p.state, NoticeFor(p.total, p.mainStored, p.state), p.total)
  }

  /** `auto_populate_answers()`: blank notes or no questions leave the store alone with a
      warning; otherwise the sections are merged. */
  function Populate(m: map<string, Value>, show: Value -> string, mainReplies: nat -> Option<Value>,
                    initiativeReplies: nat -> nat -> Option<Value>,
                    customReplies: nat -> Option<Value>): (r: Outcome<Store>)
    requires Populatable(m)
    ensures IsBlank(NotesOf(m)) ==> r == Outcome(m, Warning(NoNotesWarning), 0)
    ensures !IsBlank(NotesOf(m)) && !Truthy(GetOr(m, "questions", VDict([])))
            ==> r == Outcome(m, Warning(NoQuestionsWarning), 0)
  {
    var notes := NotesOf(m);
    if IsBlank(notes) then Outcome(m, Warning(NoNotesWarning), 0)
    else if !Truthy(GetOr(m, "questions", VDict([]))) then Outcome(m, Warning(NoQuestionsWarning), 0)
    else Sections(m, notes, show, mainReplies, initiativeReplies, customReplies)
  }

  /** One section's pass on the store, counting the answered questions before and after
      the merge; `raised` reports that counting the stored result raised. */
  method FillSection(s: Session, key: string, notes: string, show: Value -> string,
                     replies: nat -> Option<Value>) returns (gained: nat, stored: bool, raised: bool)
    requires !IsBlank(notes) && Readable(s.state, key)
    modifies s
    ensures var p := FillStored(old(s.state), key, notes, show, replies);
      s.state == p.state && gained == p.gained && stored == p.stored && raised == p.raised
  {
    var v := GetOr(s.state, key, VList([]));
    gained, stored, raised := 0, false, false;
    if Truthy(v) {
      var before := AnsweredTotal(v);
      var updated := AutofillAnswers(notes, v, show, replies);
      if updated.Raises? {
        // the merge wrote into the stored dictionaries before it raised
        s.state := s.state[key := updated.left];
        raised := true;
        return;
      }
      if Truthy(updated.value) {
        s.state := s.state[key := updated.value];
        stored := true;
        if !CountReadable(updated.value) {
          raised := true;
          return;
        }
        var after := AnsweredTotal(updated.value);
        gained := if after > before then after - before else 0;
      }
    }
  }

  /** The loop over the suggested initiatives, left when a count raises. */
  method FillInitiativeSections(s: Session, notes: string, show: Value -> string,
                                replies: nat -> nat -> Option<Value>, total: nat)
    returns (newTotal: nat, raised: bool)
    requires !IsBlank(notes) && InitiativesReadable(s.state, InitiativeCount(s.state))
    requires Readable(s.state, CustomKey)
    modifies s
    ensures var r := FillInitiatives(old(s.state), notes, show, replies, InitiativeCount(old(s.state)));
      s.state == r.0 && newTotal == total + r.1 && raised == r.2
  {
    ghost var m0 := s.state;
    var count := InitiativeCount(s.state);
    var gained: nat := 0;
    var i: nat := 0;
    raised := false;
    while i < count && !raised
      invariant i <= count
      invariant s.state == FillInitiatives(m0, notes, show, replies, i).0
      invariant gained == FillInitiatives(m0, notes, show, replies, i).1
      invariant raised == FillInitiatives(m0, notes, show, replies, i).2
    {
      InitiativeStep(m0, notes, show, replies, i, count);
      var g, _, r := FillSection(s, InitiativeKey(i), notes, show, replies(i));
      gained, raised := gained + g, r;
      i := i + 1;
    }
    RaisedStays(m0, notes, show, replies, i, count);
    newTotal := total + gained;
  }

  /** The passes before initiative `i` leave its questions as they were stored. */
  lemma InitiativeReadable(m: map<string, Value>, notes: string, show: Value -> string,
                           replies: nat -> nat -> Option<Value>, i: nat, n: nat)
    requires i < n && !IsBlank(notes) && InitiativesReadable(m, n)
    ensures Readable(FillInitiatives(m, notes, show, replies, i).0, InitiativeKey(i))
  {
    var prev := FillInitiatives(m, notes, show, replies, i);
    assert Readable(m, InitiativeKey(i));
    assert InitiativeKey(i) in prev.0 ==> prev.0[InitiativeKey(i)] == m[InitiativeKey(i)];
  }

  /** When the passes before initiative `i` did not raise, its questions are still
      readable and the passes up to it are those passes followed by its own. */
  lemma InitiativeStep(m: map<string, Value>, notes: string, show: Value -> string,
                       replies: nat -> nat -> Option<Value>, i: nat, n: nat)
    requires i < n && !IsBlank(notes) && InitiativesReadable(m, n)
    requires !FillInitiatives(m, notes, show, replies, i).2
    ensures var prev := FillInitiatives(m, notes, show, replies, i);
      Readable(prev.0, InitiativeKey(i)) &&
      var p := FillStored(prev.0, InitiativeKey(i), notes, show, replies(i));
      var next := FillInitiatives(m, notes, show, replies, i + 1);
      next.0 == p.state && next.1 == prev.1 + p.gained && next.2 == p.raised
  {
    InitiativeReadable(m, notes, show, replies, i, n);
    var prev := FillInitiatives(m, notes, show, replies, i);
    var p := FillStored(prev.0, InitiativeKey(i), notes, show, replies(i));
    assert FillInitiatives(m, notes, show, replies, i + 1) == Advance(prev, p);
  }

  /** The passes so far followed by one more. */
  function Advance(prev: (map<string, Value>, nat, bool), step: Pass<Store>): (map<string, Value>, nat, bool) {
    (step.state, prev.1 + step.gained, step.raised)
  }

  /** Once a pass has raised, further initiatives change nothing. */
  lemma {:induction false} RaisedStays(m: map<string, Value>, notes: string, show: Value -> string,
                                       replies: nat -> nat -> Option<Value>, i: nat, n: nat)
    requires i <= n && !IsBlank(notes) && InitiativesReadable(m, n)
    requires FillInitiatives(m, notes, show, replies, i).2 || i == n
    ensures var last, now := FillInitiatives(m, notes, show, replies, n), FillInitiatives(m, notes, show, replies, i);
      last.0 == now.0 && last.1 == now.1 && last.2 == now.2
    decreases n - i
  {
    if i < n {
      RaisedStays(m, notes, show, replies, i + 1, n);
    }
  }

  /** The three kinds of section on the store. */
  method MergeSections(s: Session, notes: string, show: Value -> string,
                       mainReplies: nat -> Option<Value>, initiativeReplies: nat -> nat -> Option<Value>,
                       customReplies: nat -> Option<Value>) returns (notice: Notice)
    requires SectionsReadable(s.state, notes)
    modifies s
    ensures var r := Sections(old(s.state), notes, show, mainReplies, initiativeReplies, customReplies);
      s.state == r.state && notice == r.notice
  {
    ghost var main := MainPass(s.state, notes, show, mainReplies);
    var total, mainStored, raised := FillSection(s, "questions", notes, show, mainReplies);
    assert Progress(s.state, total, mainStored, raised) == main;
    if raised {
      return Raised;
    }
    ghost var inits := InitiativesPass(main, notes, show, initiativeReplies);
    total, raised := FillInitiativeSections(s, notes, show, initiativeReplies, total);
    assert Progress(s.state, total, mainStored, raised) == inits;
    if raised {
      return Raised;
    }
    ghost var custom := CustomPass(inits, notes, show, customReplies);
    var customGained, _, customRaised := FillSection(s, CustomKey, notes, show, customReplies);
    total := total + customGained;
    assert Progress(s.state, total, mainStored, customRaised) == custom;
    if customRaised {
      return Raised;
    }
    notice := NoticeFor(total, mainStored, s.state);
  }

  /** Notes and the questions of `NoneAnswered` in the store, and nothing else. */
  const NoneAnsweredStore := map["notes_content" := VStr("n"), "questions" := NoneAnswered]

  /** On that store, with a reply that answers nothing, the operation runs to the end:
      the merged questions are stored and the acknowledgement is shown. */
  lemma NoneAnswerPopulated(show: Value -> string, mainReplies: nat -> Option<Value>,
                            initiativeReplies: nat -> nat -> Option<Value>, customReplies: nat -> Option<Value>)
    requires mainReplies(0) == Some(VDict([]))
    ensures Populatable(NoneAnsweredStore)
    ensures Populate(NoneAnsweredStore, show, mainReplies, initiativeReplies, customReplies).notice == Info
  {
    var m := NoneAnsweredStore;
    NoneAnswerUnreplied(show, mainReplies);
    assert NotesOf(m) == "n";
    assert InitiativeCount(m) == 0;
    assert Populatable(m);
    var main := FillStored(m, "questions", "n", show, mainReplies);
    var q := VDict([("text", VStr("q")), ("answer", VNone)]);
    assert !Answered(q);
    FillNeverOverwrites(q, None);
    assert ReplyAnswer(mainReplies(0), 0).None?;
    assert Filled([q], mainReplies(0)) == [q];
    var merged := Merged(NoneAnswered.entries, mainReplies, 1);
    assert merged == [("Technical", VList([q]))];
    assert AutofillResult("n", NoneAnswered, show, mainReplies) == Returned(VDict(merged));
    assert main.stored && !main.raised && main.gained == 0 by {
      AnswersSnoc([], q);
      assert [q] == [] + [q];
      assert ListsTotal(merged, 0) == 0;
    }
  }

  /** `auto_populate_answers()` on the session store. */
  method AutoPopulateAnswers(s: Session, show: Value -> string, mainReplies: nat -> Option<Value>,
                             initiativeReplies: nat -> nat -> Option<Value>,
                             customReplies: nat -> Option<Value>) returns (notice: Notice)
    requires Populatable(s.state)
    modifies s
    ensures var r := Populate(old(s.state), show, mainReplies, initiativeReplies, customReplies);
      s.state == r.state && notice == r.notice
  {
    var notes := NotesOf(s.state);
    StripEmptyIffBlank(notes);
    if Strip(notes) == "" {
      return Warning(NoNotesWarning);
    }
    if !Truthy(GetOr(s.state, "questions", VDict([]))) {
      return Warning(NoQuestionsWarning);
    }
    notice := MergeSections(s, notes, show, mainReplies, initiativeReplies, customReplies);
  }

  // ----- What the operation promises -----

  /** No answered question is lost from any stored collection. */
  predicate KeepsAnswers(before: map<string, Value>, after: map<string, Value>) {
    forall k {:trigger AnsweredTotal(after[k])} :: k in before && k in after ==> AnsweredTotal(after[k]) >= AnsweredTotal(before[k])
  }

  lemma KeepsAnswersTrans(a: map<string, Value>, b: map<string, Value>, c: map<string, Value>)
    requires a.Keys == b.Keys == c.Keys && KeepsAnswers(a, b) && KeepsAnswers(b, c)
    ensures KeepsAnswers(a, c)
  {
  }

  lemma FillStoredKeepsAnswers(m: map<string, Value>, key: string, notes: string, show: Value -> string,
                               replies: nat -> Option<Value>)
    requires !IsBlank(notes) && Readable(m, key)
    ensures KeepsAnswers(m, FillStored(m, key, notes, show, replies).state)
  {
    var v := GetOr(m, key, VList([]));
    if Truthy(v) {
      if MergeRaises(v, show, replies) {
        RaisedKeepsAnswers(notes, v, show, replies);
      } else {
        AutofillKeepsAnswers(notes, v, show, replies);
      }
    }
  }

  lemma {:induction false} FillInitiativesKeepAnswers(m: map<string, Value>, notes: string, show: Value -> string,
                                                      replies: nat -> nat -> Option<Value>, n: nat)
    requires !IsBlank(notes) && InitiativesReadable(m, n)
    ensures KeepsAnswers(m, FillInitiatives(m, notes, show, replies, n).0)
  {
    if n > 0 {
      FillInitiativesKeepAnswers(m, notes, show, replies, n - 1);
      InitiativeKeepsAnswers(m, notes, show, replies, n - 1, n);
    }
  }

  /** The pass over initiative `i` keeps every answer the passes before it kept. */
  lemma InitiativeKeepsAnswers(m: map<string, Value>, notes: string, show: Value -> string,
                               replies: nat -> nat -> Option<Value>, i: nat, n: nat)
    requires i < n && !IsBlank(notes) && InitiativesReadable(m, n)
    ensures KeepsAnswers(m, FillInitiatives(m, notes, show, replies, i).0)
            ==> KeepsAnswers(m, FillInitiatives(m, notes, show, replies, i + 1).0)
  {
    var prev := FillInitiatives(m, notes, show, replies, i);
    if !KeepsAnswers(m, prev.0) {
    } else if prev.2 {
      RaisedStays(m, notes, show, replies, i, i + 1);
    } else {
      InitiativeStep(m, notes, show, replies, i, n);
      FillInitiativesFrame(m, notes, show, replies, i);
      StepKeepsAnswers(m, prev.0, InitiativeKey(i), notes, show, replies(i));
    }
  }

  /** One more pass after passes that kept every answer still keeps every answer. */
  lemma StepKeepsAnswers(m: map<string, Value>, prev: map<string, Value>, key: string, notes: string,
                         show: Value -> string, replies: nat -> Option<Value>)
    requires !IsBlank(notes) && Readable(prev, key)
    requires m.Keys == prev.Keys && KeepsAnswers(m, prev)
    ensures KeepsAnswers(m, FillStored(prev, key, notes, show, replies).state)
  {
    FillStoredKeepsAnswers(prev, key, notes, show, replies);
    KeepsAnswersTrans(m, prev, FillStored(prev, key, notes, show, replies).state);
  }

  /** `auto_populate_answers` never loses an answer: every stored collection holds at
      least as many answered questions afterwards, and only the question collections
      change. */
  lemma PopulateKeepsAnswers(m: map<string, Value>, show: Value -> string, mainReplies: nat -> Option<Value>,
                             initiativeReplies: nat -> nat -> Option<Value>, customReplies: nat -> Option<Value>)
    requires Populatable(m)
    ensures var r := Populate(m, show, mainReplies, initiativeReplies, customReplies);
      KeepsAnswers(m, r.state) && r.state.Keys == m.Keys
      && forall k :: k in m && k != "questions" && k != CustomKey && !StartsWith(k, InitiativePrefix)
           ==> r.state[k] == m[k]
  {
    var notes := NotesOf(m);
    if !IsBlank(notes) && Truthy(GetOr(m, "questions", VDict([]))) {
      var p1 := MainPass(m, notes, show, mainReplies);
      FillStoredKeepsAnswers(m, "questions", notes, show, mainReplies);
      var p2 := InitiativesPass(p1, notes, show, initiativeReplies);
      FillInitiativesKeepAnswers(p1.state, notes, show, initiativeReplies, InitiativeCount(p1.state));
      FillStoredKeepsAnswers(p2.state, CustomKey, notes, show, customReplies);
    }
  }

  /** Replies that never hold a usable answer gain nothing. */
  ghost predicate Silent(replies: nat -> Option<Value>) {
    forall c :: replies(c).None?
  }

  lemma FillStoredSilent(m: map<string, Value>, key: string, notes: string, show: Value -> string,
                         replies: nat -> Option<Value>)
    requires !IsBlank(notes) && Readable(m, key) && Silent(replies)
    ensures FillStored(m, key, notes, show, replies).gained == 0
  {
    var v := GetOr(m, key, VList([]));
    if Truthy(v) {
      AutofillWithoutRepliesGainsNothing(notes, v, show, replies);
    }
  }

  lemma {:induction false} FillInitiativesSilent(m: map<string, Value>, notes: string, show: Value -> string,
                                                 replies: nat -> nat -> Option<Value>, n: nat)
    requires !IsBlank(notes) && InitiativesReadable(m, n)
    requires forall i: nat :: Silent(replies(i))
    ensures FillInitiatives(m, notes, show, replies, n).1 == 0
  {
    if n > 0 {
      var prev := FillInitiatives(m, notes, show, replies, n - 1);
      var key := InitiativeKey(n - 1);
      FillInitiativesSilent(m, notes, show, replies, n - 1);
      assert Readable(prev.0, key) by {
        assert Readable(m, key);
        assert key in prev.0 ==> prev.0[key] == m[key];
      }
      if !prev.2 {
        var step := FillStored(prev.0, key, notes, show, replies(n - 1));
        assert FillInitiatives(m, notes, show, replies, n).1 == prev.1 + step.gained;
        FillStoredSilent(prev.0, key, notes, show, replies(n - 1));
      }
    }
  }

  /** When no reply holds a usable answer the operation never reports success: the count
      it reports is the answers actually gained. */
  lemma SilentRepliesNeverSucceed(m: map<string, Value>, show: Value -> string, mainReplies: nat -> Option<Value>,
                                  initiativeReplies: nat -> nat -> Option<Value>, customReplies: nat -> Option<Value>)
    requires Populatable(m)
    requires Silent(mainReplies) && Silent(customReplies) && forall i: nat :: Silent(initiativeReplies(i))
    ensures !Populate(m, show, mainReplies, initiativeReplies, customReplies).notice.Success?
  {
    var notes := NotesOf(m);
    if !IsBlank(notes) && Truthy(GetOr(m, "questions", VDict([]))) {
      var p1 := MainPass(m, notes, show, mainReplies);
      FillStoredSilent(m, "questions", notes, show, mainReplies);
      var p2 := InitiativesPass(p1, notes, show, initiativeReplies);
      FillInitiativesSilent(p1.state, notes, show, initiativeReplies, InitiativeCount(p1.state));
      FillStoredSilent(p2.state, CustomKey, notes, show, customReplies);
    }
  }
}
