/** Discovery questions as the application stores them: dictionaries with `text`,
    `answer`, `category` and further keys. The keyword classification into Technical,
    Business and Competitive buckets appears, line for line, in
    `autofill_answers_from_notes`, `generate_mermaid_architecture`,
    `generate_xml_architecture` and `prepare_discovery_notes`; it is defined once here. */
module Questions {
  import opened Text
  import opened Values

  datatype Bucket = Technical | Business | Competitive

  /** The dictionary key of a bucket in the grouped form. */
  function BucketName(b: Bucket): string {
    match b
    case Technical => "Technical"
    case Business => "Business"
    case Competitive => "Competitive"
  }

  /** `any(word in text for word in words)` */
  predicate AnyIn(text: string, words: seq<string>) {
    exists i | 0 <= i < |words| :: Contains(text, words[i])
  }

  const TechnicalWords: seq<string> := ["technical", "technology", "system", "integration", "data", "platform"]
  const BusinessWords: seq<string> := ["business", "process", "workflow", "organization", "team", "department"]
  const CompetitiveWords: seq<string> := ["competitor", "competition", "vendor", "alternative", "current solution"]

  /** The bucket of a question with lower-cased `category` and lower-cased `text`:
      category keywords first, then text keywords, and Technical when nothing matches. */
  function Classify(category: string, text: string): (b: Bucket)
    ensures (Contains(category, "technical") || Contains(category, "tech")) ==> b == Technical
    ensures (!Contains(category, "technical") && !Contains(category, "tech")
             && (Contains(category, "business") || Contains(category, "biz"))) ==> b == Business
    ensures b == Competitive ==>
              Contains(category, "competitive") || Contains(category, "competitor")
              || Contains(category, "competition") || AnyIn(text, CompetitiveWords)
    ensures b == Business ==>
              Contains(category, "business") || Contains(category, "biz") || AnyIn(text, BusinessWords)
  {
    if Contains(category, "technical") || Contains(category, "tech") then Technical
    else if Contains(category, "business") || Contains(category, "biz") then Business
    else if Contains(category, "competitive") || Contains(category, "competitor")
            || Contains(category, "competition") then Competitive
    else if AnyIn(text, TechnicalWords) then Technical
    else if AnyIn(text, BusinessWords) then Business
    else if AnyIn(text, CompetitiveWords) then Competitive
    else Technical
  }

  /** A question no keyword matches is Technical. */
  lemma DefaultIsTechnical(category: string, text: string)
    requires forall w :: w in ["technical", "tech", "business", "biz", "competitive", "competitor", "competition"]
               ==> !Contains(category, w)
    requires !AnyIn(text, TechnicalWords) && !AnyIn(text, BusinessWords) && !AnyIn(text, CompetitiveWords)
    ensures Classify(category, text) == Technical
  {
    assert !Contains(category, "technical") && !Contains(category, "tech");
    assert !Contains(category, "business") && !Contains(category, "biz");
    assert !Contains(category, "competitive") && !Contains(category, "competitor") && !Contains(category, "competition");
  }

  /** `q.get(k, '')` when it must be a string: `.lower()` and `.strip()` are called on it. */
  predicate StrOrAbsent(q: Value, k: string) {
    Lookup(q, k).None? || Lookup(q, k).value.VStr?
  }

  function StrField(q: Value, k: string): string {
    AsStr(Get(q, k, VStr("")))
  }

  /** `q.get('answer', '').strip()` is non-empty. */
  predicate Answered(q: Value) {
    q.VDict? && NonBlankStr(Get(q, "answer", VStr("")))
  }

  /** `str(v)` for a value that is already a string, and `show(v)` otherwise. */
  function PyStr(v: Value, show: Value -> string): string {
    if v.VStr? then v.s else show(v)
  }

  /** The text `autofill_answers_from_notes` classifies by: the `text` field when it is a
      string; for a dictionary its `text`, else its `question`, else the dictionary itself,
      each through `str`; anything else through `str`. */
  function AutofillText(q: Value, show: Value -> string): string {
    TextOf(Get(q, "text", VStr("")), show)
  }

  function TextOf(t: Value, show: Value -> string): string {
    if t.VStr? then Lower(t.s)
    else if t.VDict? then Lower(PyStr(Get(t, "text", Get(t, "question", VStr(show(t)))), show))
    else Lower(show(t))
  }

  /** The bucket of one dictionary question. `show` stands for Python's `str` of a
      non-string value; where the caller calls `.lower()` on the text directly the text is
      a string and `show` is never consulted. */
  function BucketOf(q: Value, show: Value -> string): Bucket {
    Classify(Lower(StrField(q, "category")), AutofillText(q, show))
  }

  /** `BucketOf` with its `show` fixed, as a classifier to group by. */
  function Classifier(show: Value -> string): Value -> Bucket {
    q => BucketOf(q, show)
  }

  /** The dictionary questions of `qs[..n]` that `bucket` puts in `b`, in order. */
  function InBucket(qs: seq<Value>, b: Bucket, bucket: Value -> Bucket, n: nat): (r: seq<Value>)
    requires n <= |qs|
    ensures |r| <= n
  {
    if n == 0 then []
    else if qs[n - 1].VDict? && bucket(qs[n - 1]) == b then InBucket(qs, b, bucket, n - 1) + [qs[n - 1]]
    else InBucket(qs, b, bucket, n - 1)
  }

  /** The dictionary questions of `qs[..n]`, in order: the list path drops everything else. */
  function Dicts(qs: seq<Value>, n: nat): (r: seq<Value>)
    requires n <= |qs|
    ensures |r| <= n
  {
    if n == 0 then []
    else if qs[n - 1].VDict? then Dicts(qs, n - 1) + [qs[n - 1]]
    else Dicts(qs, n - 1)
  }

  /** Every dictionary lands in exactly one bucket and nothing else lands anywhere. */
  lemma {:induction false} BucketsPartition(qs: seq<Value>, bucket: Value -> Bucket, n: nat)
    requires n <= |qs|
    ensures multiset(InBucket(qs, Technical, bucket, n) + InBucket(qs, Business, bucket, n)
                     + InBucket(qs, Competitive, bucket, n)) == multiset(Dicts(qs, n))
  {
    if n > 0 {
      BucketsPartition(qs, bucket, n - 1);
      var q := qs[n - 1];
      var t, b, c := InBucket(qs, Technical, bucket, n - 1), InBucket(qs, Business, bucket, n - 1),
                     InBucket(qs, Competitive, bucket, n - 1);
      if q.VDict? {
        AddToOne(t, b, c, q, bucket(q));
      }
    }
  }

  /** Appending `q` to one of three lists adds `q` once to their combined contents. */
  lemma AddToOne(t: seq<Value>, b: seq<Value>, c: seq<Value>, q: Value, k: Bucket)
    ensures multiset((if k == Technical then t + [q] else t) + (if k == Business then b + [q] else b)
                     + (if k == Competitive then c + [q] else c)) == multiset(t + b + c) + multiset{q}
  {
  }

  /** The list path of the classification: the question list becomes the dictionary
      `{'Technical': [...], 'Business': [...], 'Competitive': [...]}`, each list in the
      order of the input. */
  method Categorize(qs: seq<Value>, show: Value -> string) returns (grouped: seq<(string, Value)>)
    ensures grouped == Grouped(qs, show)
  {
    grouped := GroupBy(qs, Classifier(show));
  }

  /** The grouping loop for any classifier. */
  method GroupBy(qs: seq<Value>, bucket: Value -> Bucket) returns (grouped: seq<(string, Value)>)
    ensures grouped == GroupedBy(qs, bucket)
  {
    var technical: seq<Value> := [];
    var business: seq<Value> := [];
    var competitive: seq<Value> := [];
    for n := 0 to |qs|
      invariant technical == InBucket(qs, Technical, bucket, n)
      invariant business == InBucket(qs, Business, bucket, n)
      invariant competitive == InBucket(qs, Competitive, bucket, n)
    {
      var q := qs[n];
      if q.VDict? {
        var b := bucket(q);
        if b == Technical {
          technical := technical + [q];
        } else if b == Business {
          business := business + [q];
        } else {
          competitive := competitive + [q];
        }
      }
    }
    grouped := [("Technical", VList(technical)), ("Business", VList(business)),
                ("Competitive", VList(competitive))];
  }

  function GroupedBy(qs: seq<Value>, bucket: Value -> Bucket): (g: seq<(string, Value)>)
    ensures |g| == 3 && forall i :: 0 <= i < 3 ==> g[i].1.VList?
  {
    [("Technical", VList(InBucket(qs, Technical, bucket, |qs|))),
     ("Business", VList(InBucket(qs, Business, bucket, |qs|))),
     ("Competitive", VList(InBucket(qs, Competitive, bucket, |qs|)))]
  }

  function Grouped(qs: seq<Value>, show: Value -> string): (g: seq<(string, Value)>)
    ensures |g| == 3 && forall i :: 0 <= i < 3 ==> g[i].1.VList?
  {
    GroupedBy(qs, Classifier(show))
  }

  /** The grouped form holds exactly the dictionary questions of the list, each once. */
  lemma GroupedIsPartition(qs: seq<Value>, show: Value -> string)
    ensures var g := Grouped(qs, show);
      multiset(g[0].1.items + g[1].1.items + g[2].1.items) == multiset(Dicts(qs, |qs|))
  {
    BucketsPartition(qs, Classifier(show), |qs|);
  }
}
