/** `modules/expert_search.py`: finding experts for a set of search terms in the
    Freestyle skills table and in Salesforce opportunities, scoring them, and merging the
    two searches. The rows a query returns are parameters (a function from the query's
    search pattern to its rows); a failed query returns no rows, as `execute_query` does. */
module Experts {
  import opened Text
  import opened Values

  // ----- parse_skill_array -----

  const SkillBrackets: set<char> := {'[', ']', '"', '\''}
  const Quotes: set<char> := {'"', '\''}

  /** `s.strip().strip('"\'')` */
  function SkillPiece(p: string): (r: string)
    ensures |r| <= |p|
    ensures r == [] || (r[0] !in Quotes && r[|r| - 1] !in Quotes)
  {
    StripChars(Strip(p), Quotes)
  }

  /** The skills in a cell: nothing for a falsy cell, a list as it is, a string with its
      brackets and quotes stripped and then split on commas (each piece stripped of
      spaces and quotes), and anything else as its `str`. */
  function ParseSkillArray(v: Value, show: Value -> string): (r: seq<Value>)
    ensures !Truthy(v) ==> r == []
    ensures Truthy(v) && v.VList? ==> r == v.items
    ensures Truthy(v) && !v.VList? && !v.VStr? ==> r == [VStr(show(v))]
    ensures v.VStr? ==> forall i :: 0 <= i < |r| ==> r[i].VStr?
  {
    if !Truthy(v) then []
    else if v.VList? then v.items
    else if v.VStr? then ParseSkillString(v.s)
    else [VStr(show(v))]
  }

  function ParseSkillString(s: string): (r: seq<Value>)
  {
    var cleaned := StripChars(s, SkillBrackets);
    if ',' in cleaned then
      var parts := Split(cleaned, ',');
      seq(|parts|, i requires 0 <= i < |parts| => VStr(SkillPiece(parts[i])))
    else if cleaned == [] then []
    else [VStr(cleaned)]
  }

  /** A string cell without a comma (once stripped) is one skill, or none when nothing is
      left; with commas it is one skill per comma-separated piece, the pieces joining
      back into the stripped cell. */
  lemma ParseSkillStringShape(s: string)
    ensures var cleaned := StripChars(s, SkillBrackets);
      var r := ParseSkillString(s);
      (',' !in cleaned ==> r == (if cleaned == [] then [] else [VStr(cleaned)]))
      && (',' in cleaned ==>
            var parts := Split(cleaned, ',');
            |r| == |parts| >= 2 && Join(parts, ",") == cleaned
            && (forall i :: 0 <= i < |parts| ==> ',' !in parts[i] && r[i] == VStr(SkillPiece(parts[i]))))
  {
    var cleaned := StripChars(s, SkillBrackets);
    if ',' in cleaned {
      JoinSplit(cleaned, ',');
      SplitPartsLackSep(cleaned, ',');
    }
  }

  // ----- calculate_skill_relevance -----

  /** The skill columns searched, in order; specialties count twice. */
  const SkillColumns: seq<string> := ["SELF_ASSESMENT_SKILL_400", "MGR_SCORE_SKILL_400",
    "SELF_ASSESMENT_SKILL_300", "MGR_SCORE_SKILL_300", "SPECIALTIES", "CERT_EXTERNAL", "CERT_INTERNAL"]

  /** What one column adds to the searched text: a space and its upper-cased `str`
      (twice over for specialties) when the cell is truthy. */
  function ColumnText(row: Value, column: string, show: Value -> string): string {
    var cell := Get(row, column, VNone);
    if !Truthy(cell) then ""
    else
      var t := Upper(if cell.VStr? then cell.s else show(cell));
      if column == "SPECIALTIES" then " " + t + t else " " + t
  }

  function SkillText(row: Value, show: Value -> string, n: nat): string
    requires n <= |SkillColumns|
  {
    if n == 0 then "" else SkillText(row, show, n - 1) + ColumnText(row, SkillColumns[n - 1], show)
  }

  /** The number of `terms[..n]` found in `text` once upper-cased. */
  function Matches(text: string, terms: seq<string>, n: nat): (m: nat)
    requires n <= |terms|
    ensures m <= n
  {
    if n == 0 then 0
    else Matches(text, terms, n - 1) + (if Contains(text, Upper(terms[n - 1])) then 1 else 0)
  }

  /** The share of terms found, as a whole percentage, and at least 20. */
  function Score(matched: nat, total: nat): (r: int)
    requires matched <= total
    ensures 20 <= r <= 100
    ensures total > 0 && matched == total ==> r == 100
    ensures total > 0 ==> r == Max(20, 100 * matched / total)
  {
    if total > 0 then
      ShareAtMost100(matched, total);
      Max(Min(100, 100 * matched / total), 20)
    else Max(0, 20)
  }

  /** A share of at most the whole is at most 100 percent, and exactly 100 for the whole. */
  lemma ShareAtMost100(matched: nat, total: nat)
    requires 0 < total && matched <= total
    ensures 100 * matched / total <= 100
    ensures matched == total ==> 100 * matched / total == 100
  {
    assert 100 * matched <= 100 * total;
    if matched == total {
      assert 100 * matched == 100 * total;
    }
  }

  function Min(a: int, b: int): int { if a <= b then a else b }
  function Max(a: int, b: int): int { if a >= b then a else b }

  predicate AllStrings(terms: seq<Value>) {
    forall i :: 0 <= i < |terms| ==> terms[i].VStr?
  }

  function Strs(terms: seq<Value>): (r: seq<string>)
    requires AllStrings(terms)
    ensures |r| == |terms| && forall i :: 0 <= i < |r| ==> r[i] == terms[i].s
  {
    seq(|terms|, i requires 0 <= i < |terms| => terms[i].s)
  }

  /** `calculate_skill_relevance(row, terms)`: 50 when a term is not a string (the
      exception handler), and otherwise the score of the terms found in the row's text. */
  method CalculateSkillRelevance(row: Value, terms: seq<Value>, show: Value -> string) returns (r: int)
    ensures 20 <= r <= 100
    ensures !AllStrings(terms) ==> r == 50
    ensures AllStrings(terms) ==>
      r == Score(Matches(SkillText(row, show, |SkillColumns|), Strs(terms), |terms|), |terms|)
  {
    var text := JoinSkillText(row, show);
    var total := 0;
    ghost var matched := 0;
    for i := 0 to |terms|
      invariant AllStrings(terms[..i])
      invariant matched == Matches(text, Strs(terms[..i]), i)
      invariant total == 100 * matched
    {
      if !terms[i].VStr? {
        return 50;
      }
      MatchesStep(text, terms, i);
      if Contains(text, Upper(terms[i].s)) {
        total := total + 100;
        matched := matched + 1;
      }
    }
    assert terms[..|terms|] == terms;
    assert total / 100 == matched;
    r := Score(total / 100, |terms|);
  }

  /** One more string term counted. */
  lemma MatchesStep(text: string, terms: seq<Value>, i: nat)
    requires i < |terms| && AllStrings(terms[..i]) && terms[i].VStr?
    ensures AllStrings(terms[..i + 1])
    ensures Matches(text, Strs(terms[..i + 1]), i + 1)
      == Matches(text, Strs(terms[..i]), i) + (if Contains(text, Upper(terms[i].s)) then 1 else 0)
  {
    assert Strs(terms[..i + 1])[..i] == Strs(terms[..i]);
    PrefixMatches(text, Strs(terms[..i + 1]), Strs(terms[..i]), i);
  }

  /** The upper-cased text of the row's skill and certification columns, in order. */
  method JoinSkillText(row: Value, show: Value -> string) returns (text: string)
    ensures text == SkillText(row, show, |SkillColumns|)
  {
    text := "";
    for c := 0 to |SkillColumns|
      invariant text == SkillText(row, show, c)
    {
      text := text + ColumnText(row, SkillColumns[c], show);
    }
  }

  /** `Matches` over the first n terms depends only on those terms. */
  lemma {:induction false} PrefixMatches(text: string, terms: seq<string>, shorter: seq<string>, n: nat)
    requires n <= |shorter| <= |terms| && shorter[..n] == terms[..n]
    ensures Matches(text, terms, n) == Matches(text, shorter, n)
  {
    if n > 0 {
      assert terms[n - 1] == terms[..n][n - 1] == shorter[n - 1];
      PrefixMatches(text, terms, shorter, n - 1);
    }
  }

  // ----- extract_freestyle_skills -----

  /** The de-duplicated skill buckets of a Freestyle row. */
  datatype Skills = Skills(high: set<string>, medium: set<string>, specialties: set<string>,
                           certifications: set<string>)

  /** The skills a truthy cell contributes, `[]` for a falsy one. */
  function CellSkills(row: Value, column: string, show: Value -> string): seq<Value> {
    ParseSkillArray(Get(row, column, VNone), show)
  }

  /** Every parsed skill is a string, so `.strip()` does not raise. */
  predicate StringSkills(row: Value, show: Value -> string) {
    forall c :: 0 <= c < |SkillColumns| ==> AllStrings(CellSkills(row, SkillColumns[c], show))
  }

  /** `list(set(s.strip() for s in items if s.strip()))` */
  function Cleaned(items: seq<Value>): (r: set<string>)
    requires AllStrings(items)
    ensures forall s :: s in r ==> s != [] && !IsSpace(s[0]) && !IsSpace(s[|s| - 1])
    ensures forall i :: 0 <= i < |items| && Strip(items[i].s) != [] ==> Strip(items[i].s) in r
    ensures forall s :: s in r ==> exists i :: 0 <= i < |items| && s == Strip(items[i].s)
  {
    set i | 0 <= i < |items| && Strip(items[i].s) != [] :: Strip(items[i].s)
  }

  /** `extract_freestyle_skills(row)` when every parsed skill is a string. */
  function ExtractFreestyleSkills(row: Value, show: Value -> string): (r: Skills)
    requires StringSkills(row, show)
    ensures forall s :: s in r.high + r.medium + r.specialties + r.certifications ==>
      s != [] && !IsSpace(s[0]) && !IsSpace(s[|s| - 1])
  {
    assert AllStrings(CellSkills(row, SkillColumns[0], show));
    assert AllStrings(CellSkills(row, SkillColumns[1], show));
    assert AllStrings(CellSkills(row, SkillColumns[2], show));
    assert AllStrings(CellSkills(row, SkillColumns[3], show));
    assert AllStrings(CellSkills(row, SkillColumns[4], show));
    assert AllStrings(CellSkills(row, SkillColumns[5], show));
    assert AllStrings(CellSkills(row, SkillColumns[6], show));
    Skills(Cleaned(CellSkills(row, SkillColumns[0], show) + CellSkills(row, SkillColumns[1], show)),
           Cleaned(CellSkills(row, SkillColumns[2], show) + CellSkills(row, SkillColumns[3], show)),
           Cleaned(CellSkills(row, SkillColumns[4], show)),
           Cleaned(CellSkills(row, SkillColumns[5], show) + CellSkills(row, SkillColumns[6], show)))
  }

  /** The skill lists of the Sales Engineer directory, each as parsed, without clean-up. */
  datatype SeSkills = SeSkills(high: seq<Value>, medium: seq<Value>, specialties: seq<Value>,
                               certifications: seq<Value>)

  /** `extract_se_skills(row)`: the self-assessed 400 and 300 skills, the specialties, and
      the external then internal certifications, each as the cell parses; a falsy or
      missing cell gives an empty list. */
  function ExtractSeSkills(row: Value, show: Value -> string): (r: SeSkills)
    ensures !Truthy(Get(row, SkillColumns[0], VNone)) ==> r.high == []
    ensures !Truthy(Get(row, SkillColumns[2], VNone)) ==> r.medium == []
    ensures !Truthy(Get(row, SkillColumns[4], VNone)) ==> r.specialties == []
    ensures |r.certifications| == |CellSkills(row, SkillColumns[5], show)| + |CellSkills(row, SkillColumns[6], show)|
  {
    SeSkills(CellSkills(row, SkillColumns[0], show), CellSkills(row, SkillColumns[2], show),
             CellSkills(row, SkillColumns[4], show),
             CellSkills(row, SkillColumns[5], show) + CellSkills(row, SkillColumns[6], show))
  }

  /** The directory's specialties and certifications, cleaned and de-duplicated, are the
      Freestyle buckets. */
  lemma SeSkillsAgree(row: Value, show: Value -> string)
    requires StringSkills(row, show)
    ensures var se := ExtractSeSkills(row, show);
      var fs := ExtractFreestyleSkills(row, show);
      AllStrings(se.specialties) && AllStrings(se.certifications)
      && Cleaned(se.specialties) == fs.specialties
      && Cleaned(se.certifications) == fs.certifications
  {
    StringCells(row, show);
  }

  /** The directory's high and medium skills are the self-assessed part of the Freestyle
      buckets. */
  lemma SeSkillsWithin(row: Value, show: Value -> string)
    requires StringSkills(row, show)
    ensures var se := ExtractSeSkills(row, show);
      var fs := ExtractFreestyleSkills(row, show);
      AllStrings(se.high) && Cleaned(se.high) <= fs.high
      && AllStrings(se.medium) && Cleaned(se.medium) <= fs.medium
  {
    StringCells(row, show);
    CleanedPrefix(CellSkills(row, SkillColumns[0], show), CellSkills(row, SkillColumns[1], show));
    CleanedPrefix(CellSkills(row, SkillColumns[2], show), CellSkills(row, SkillColumns[3], show));
  }

  /** `StringSkills` column by column. */
  lemma StringCells(row: Value, show: Value -> string)
    requires StringSkills(row, show)
    ensures AllStrings(CellSkills(row, "SELF_ASSESMENT_SKILL_400", show))
      && AllStrings(CellSkills(row, "MGR_SCORE_SKILL_400", show))
      && AllStrings(CellSkills(row, "SELF_ASSESMENT_SKILL_300", show))
      && AllStrings(CellSkills(row, "MGR_SCORE_SKILL_300", show))
      && AllStrings(CellSkills(row, "SPECIALTIES", show))
      && AllStrings(CellSkills(row, "CERT_EXTERNAL", show))
      && AllStrings(CellSkills(row, "CERT_INTERNAL", show))
  {
    assert AllStrings(CellSkills(row, SkillColumns[0], show));
    assert AllStrings(CellSkills(row, SkillColumns[1], show));
    assert AllStrings(CellSkills(row, SkillColumns[2], show));
    assert AllStrings(CellSkills(row, SkillColumns[3], show));
    assert AllStrings(CellSkills(row, SkillColumns[4], show));
    assert AllStrings(CellSkills(row, SkillColumns[5], show));
    assert AllStrings(CellSkills(row, SkillColumns[6], show));
  }

  /** Cleaning a prefix gives a subset of cleaning the whole. */
  lemma CleanedPrefix(a: seq<Value>, b: seq<Value>)
    requires AllStrings(a) && AllStrings(b)
    ensures AllStrings(a + b) && Cleaned(a) <= Cleaned(a + b)
  {
    assert forall i :: 0 <= i < |a| ==> (a + b)[i] == a[i];
  }

  // ----- Expert records -----

  /** An opportunity as an expert record lists it. */
  datatype Opportunity = Opportunity(id: string, name: Value, account: Value, amount: Value,
                                     stage: Value, closeDate: Value, industry: Value)

  /** An entry's `skills`: a list of skills for a Freestyle entry, the dictionary
      `{'specialties': [...], 'high_proficiency': [...]}` for a Salesforce entry. */
  datatype SkillField = SkillList(items: seq<string>)
                      | SkillBuckets(specialties: seq<string>, highProficiency: seq<string>)

  /** An expert entry. A Freestyle entry has `specialties`, `college` and `employers` but
      no `opportunities` or `industries` key; a Salesforce entry the other way round. A
      missing key is `None` here. */
  datatype Expert = Expert(name: string, email: string, skills: SkillField, specialties: Option<seq<string>>,
                           college: Option<Value>, employers: Option<Value>,
                           opportunities: Option<seq<Opportunity>>, industries: Option<set<string>>,
                           relevance: int)

  /** `expert.get(k)` for the keys the merge reads. */
  function OpportunitiesOf(e: Expert): seq<Opportunity> {
    if e.opportunities.Some? then e.opportunities.value else []
  }

  function IndustriesOf(e: Expert): set<string> {
    if e.industries.Some? then e.industries.value else {}
  }

  /** Replace or append the entry for `k`, as `d[k] = x` does. */
  function Put(d: seq<(string, Expert)>, k: string, x: Expert): (r: seq<(string, Expert)>)
    requires UniqueExperts(d)
    ensures UniqueExperts(r)
  {
    var i := ExpertIndex(d, k);
    if i < 0 then
      var r := d + [(k, x)];
      assert forall j :: 0 <= j < |d| ==> r[j] == d[j];
      r
    else
      var r := d[i := (k, x)];
      assert forall j :: 0 <= j < |d| ==> r[j].0 == d[j].0;
      r
  }

  function ExpertKeys(d: seq<(string, Expert)>): (ks: set<string>) {
    set j | 0 <= j < |d| :: d[j].0
  }

  predicate UniqueExperts(d: seq<(string, Expert)>) {
    forall i, j :: 0 <= i < j < |d| ==> d[i].0 != d[j].0
  }

  /** The position of the entry for `k`, or -1. */
  function ExpertIndex(d: seq<(string, Expert)>, k: string): (i: int)
    ensures -1 <= i < |d|
    ensures i >= 0 ==> d[i].0 == k
    ensures i < 0 ==> forall j :: 0 <= j < |d| ==> d[j].0 != k
  {
    if |d| == 0 then -1
    else if d[|d| - 1].0 == k then |d| - 1
    else ExpertIndex(d[..|d| - 1], k)
  }

  /** `d.get(k)` */
  function FindExpert(d: seq<(string, Expert)>, k: string): Option<Expert> {
    var i := ExpertIndex(d, k);
    if i < 0 then None else Some(d[i].1)
  }

  /** An id has an entry exactly when it is one of the keys, and the entry found is there. */
  lemma FindIn(d: seq<(string, Expert)>, k: string)
    ensures FindExpert(d, k).Some? <==> k in ExpertKeys(d)
    ensures FindExpert(d, k).Some? ==> (k, FindExpert(d, k).value) in d
  {
    var i := ExpertIndex(d, k);
    if i >= 0 {
      assert d[i].0 in ExpertKeys(d);
    }
  }

  lemma {:induction false} UniqueIndex(d: seq<(string, Expert)>, i: nat, k: string)
    requires UniqueExperts(d) && i < |d| && d[i].0 == k
    ensures ExpertIndex(d, k) == i
  {
    if i < |d| - 1 {
      UniqueIndex(d[..|d| - 1], i, k);
    }
  }

  /** After `d[k] = x`, `d.get(k)` is `x`. */
  lemma PutFinds(d: seq<(string, Expert)>, k: string, x: Expert)
    requires UniqueExperts(d)
    ensures FindExpert(Put(d, k, x), k) == Some(x)
  {
    var i := ExpertIndex(d, k);
    if i >= 0 {
      UniqueIndex(Put(d, k, x), i, k);
    }
  }

  /** After `d[k] = x`, every other id has the entry it had. */
  lemma PutKeepsOthers(d: seq<(string, Expert)>, k: string, x: Expert, other: string)
    requires UniqueExperts(d) && other != k
    ensures FindExpert(Put(d, k, x), other) == FindExpert(d, other)
  {
    var i := ExpertIndex(d, k);
    var r := Put(d, k, x);
    if i >= 0 {
      OtherIndex(d, i, (k, x), other);
    } else {
      assert r == d + [(k, x)];
      assert r[..|r| - 1] == d;
    }
  }

  lemma {:induction false} OtherIndex(d: seq<(string, Expert)>, i: nat, e: (string, Expert), other: string)
    requires i < |d| && e.0 == d[i].0 && other != e.0
    ensures ExpertIndex(d[i := e], other) == ExpertIndex(d, other)
  {
    if |d| > 0 {
      var r := d[i := e];
      if i < |d| - 1 {
        assert r[..|r| - 1] == d[..|d| - 1][i := e];
        if d[|d| - 1].0 != other {
          OtherIndex(d[..|d| - 1], i, e, other);
        }
      } else {
        assert r[..|r| - 1] == d[..|d| - 1];
      }
    }
  }

  /** `d[k] = x` adds `k` to the keys and nothing else. */
  lemma PutKeys(d: seq<(string, Expert)>, k: string, x: Expert)
    requires UniqueExperts(d)
    ensures ExpertKeys(Put(d, k, x)) == ExpertKeys(d) + {k}
  {
    var i := ExpertIndex(d, k);
    var r := Put(d, k, x);
    if i < 0 {
      assert r == d + [(k, x)];
      assert r[|d|].0 == k;
      forall y | y in ExpertKeys(d)
        ensures y in ExpertKeys(r)
      {
        var m :| 0 <= m < |d| && d[m].0 == y;
        assert r[m].0 == y;
      }
    } else {
      assert r == d[i := (k, x)];
      assert forall j :: 0 <= j < |d| ==> r[j].0 == d[j].0;
      forall y | y in ExpertKeys(d)
        ensures y in ExpertKeys(r)
      {
        var m :| 0 <= m < |d| && d[m].0 == y;
        assert r[m].0 == y;
      }
      assert r[i].0 == k;
    }
  }

  // ----- search_freestyle_experts -----

  /** `re.sub(r'[^\w\s]', '', terms.lower())`: only word characters and spaces stay, and
      every one of them in the lower-cased terms stays, as often as it occurs there. */
  function CleanTerms(terms: string): (r: string)
    ensures |r| <= |terms|
    ensures forall i :: 0 <= i < |r| ==> IsWordChar(r[i]) || IsSpace(r[i])
    ensures forall c :: IsWordChar(c) || IsSpace(c) ==> multiset(r)[c] == multiset(Lower(terms))[c]
  {
    var lower := Lower(terms);
    KeepCounts(lower, |lower|);
    assert lower[..|lower|] == lower;
    Keep(lower, |lower|)
  }

  /** Removing characters keeps the count of every character that stays. */
  lemma {:induction false} KeepCounts(s: string, n: nat)
    requires n <= |s|
    ensures forall c :: IsWordChar(c) || IsSpace(c) ==> multiset(Keep(s, n))[c] == multiset(s[..n])[c]
  {
    if n > 0 {
      KeepCounts(s, n - 1);
      assert s[..n] == s[..n - 1] + [s[n - 1]];
    }
  }

  /** `Keep` reads only the first `n` characters. */
  lemma {:induction false} KeepPrefix(s: string, u: string, n: nat)
    requires n <= |s| && n <= |u| && s[..n] == u[..n]
    ensures Keep(s, n) == Keep(u, n)
  {
    if n > 0 {
      assert s[n - 1] == s[..n][n - 1] == u[..n][n - 1] == u[n - 1];
      assert s[..n - 1] == s[..n][..n - 1] == u[..n][..n - 1] == u[..n - 1];
      KeepPrefix(s, u, n - 1);
    }
  }

  /** Cleaning works character by character in order: the cleaned concatenation is the
      concatenation of the cleaned parts. */
  lemma {:induction false} CleanTermsAppend(a: string, b: string)
    ensures CleanTerms(a + b) == CleanTerms(a) + CleanTerms(b)
  {
    var la, lb := Lower(a), Lower(b);
    assert Lower(a + b) == la + lb;
    KeepAppend(la, lb, |lb|);
    assert (la + lb)[..|la + lb|] == la + lb;
  }

  lemma {:induction false} KeepAppend(s: string, t: string, m: nat)
    requires m <= |t|
    ensures Keep(s + t, |s| + m) == Keep(s, |s|) + Keep(t, m)
  {
    if m == 0 {
      KeepPrefix(s + t, s, |s|);
    } else {
      KeepAppend(s, t, m - 1);
      assert (s + t)[|s| + m - 1] == t[m - 1];
    }
  }

  function Keep(s: string, n: nat): (r: string)
    requires n <= |s|
    ensures |r| <= n
    ensures forall i :: 0 <= i < |r| ==> IsWordChar(r[i]) || IsSpace(r[i])
  {
    if n == 0 then []
    else if IsWordChar(s[n - 1]) || IsSpace(s[n - 1]) then Keep(s, n - 1) + [s[n - 1]]
    else Keep(s, n - 1)
  }

  /** A row of the Freestyle query. */
  datatype FreestyleRow = FreestyleRow(name: string, email: string, college: Value, employers: Value,
                                       skills: Value, specialties: Value, relevance: int)

  /** `[s.strip() for s in str(cell).split(',') if s.strip()]` for a truthy cell, else `[]`. */
  function CommaList(cell: Value, show: Value -> string): (r: seq<string>)
    ensures forall i :: 0 <= i < |r| ==> r[i] != []
  {
    if !Truthy(cell) then []
    else
      var parts := Split(if cell.VStr? then cell.s else show(cell), ',');
      NonBlank(parts, |parts|)
  }

  function NonBlank(parts: seq<string>, n: nat): (r: seq<string>)
    requires n <= |parts|
    ensures |r| <= n && forall i :: 0 <= i < |r| ==> r[i] != []
  {
    if n == 0 then []
    else if Strip(parts[n - 1]) != [] then NonBlank(parts, n - 1) + [Strip(parts[n - 1])]
    else NonBlank(parts, n - 1)
  }

  /** The entry for one row: the comma lists cleaned, the college and employers as the
      query returned them, and no opportunities or industries. */
  function FreestyleExpert(row: FreestyleRow, show: Value -> string): (e: Expert)
    ensures e.skills == SkillList(CommaList(row.skills, show)) && e.specialties == Some(CommaList(row.specialties, show))
    ensures e.college == Some(row.college) && e.employers == Some(row.employers)
    ensures e.opportunities.None? && e.industries.None?
  {
    Expert(row.name, row.email, SkillList(CommaList(row.skills, show)), Some(CommaList(row.specialties, show)),
           Some(row.college), Some(row.employers), None, None, row.relevance)
  }

  /** The query is issued only for a term of at least two characters once cleaned and
      stripped; it passes the cleaned term for each of its twelve placeholders. */
  function FreestyleParams(terms: string): (p: Option<seq<string>>)
    ensures p.Some? ==>
      |Strip(CleanTerms(terms))| >= 2 && |p.value| == 12 && forall i :: 0 <= i < 12 ==> p.value[i] == CleanTerms(terms)
    ensures p.None? ==> terms == [] || |Strip(CleanTerms(terms))| < 2
  {
    if terms == [] || |Strip(CleanTerms(terms))| < 2 then None
    else Some(seq(12, _ => CleanTerms(terms)))
  }

  /** `search_freestyle_experts(terms)` with the query answered by `rowsFor`: one entry per
      email, a later row for the same email replacing the earlier one in place. */
  method SearchFreestyleExperts(terms: string, rowsFor: seq<string> -> seq<FreestyleRow>, show: Value -> string)
    returns (experts: seq<(string, Expert)>)
    ensures FreestyleParams(terms).None? ==> experts == []
    ensures experts == FreestyleExperts(terms, rowsFor, show)
  {
    var params := FreestyleParams(terms);
    if params.None? {
      return [];
    }
    var rows := rowsFor(params.value);
    var pairs := FreestylePairs(rows, show);
    experts := [];
    for i := 0 to |rows|
      invariant experts == PutAll(pairs, i)
    {
      experts := Put(experts, rows[i].email, FreestyleExpert(rows[i], show));
    }
  }

  function FreestyleExperts(terms: string, rowsFor: seq<string> -> seq<FreestyleRow>, show: Value -> string)
    : (d: seq<(string, Expert)>)
    ensures UniqueExperts(d)
  {
    var params := FreestyleParams(terms);
    if params.None? then [] else PutAll(FreestylePairs(rowsFor(params.value), show), |rowsFor(params.value)|)
  }

  /** The rows as (email, entry) pairs. */
  function FreestylePairs(rows: seq<FreestyleRow>, show: Value -> string): (p: seq<(string, Expert)>)
    ensures |p| == |rows| && forall j :: 0 <= j < |p| ==> p[j].0 == rows[j].email
  {
    seq(|rows|, j requires 0 <= j < |rows| => (rows[j].email, FreestyleExpert(rows[j], show)))
  }

  /** `d[k] = x` for each pair of `pairs[..n]` in turn, from an empty dictionary. */
  function PutAll(pairs: seq<(string, Expert)>, n: nat): (d: seq<(string, Expert)>)
    requires n <= |pairs|
    ensures UniqueExperts(d)
  {
    if n == 0 then [] else Put(PutAll(pairs, n - 1), pairs[n - 1].0, pairs[n - 1].1)
  }

  /** Every key of the pairs has an entry holding the last pair with that key. */
  lemma {:induction false} LastPutWins(pairs: seq<(string, Expert)>, n: nat, j: nat)
    requires j < n <= |pairs|
    requires forall k :: j < k < n ==> pairs[k].0 != pairs[j].0
    ensures FindExpert(PutAll(pairs, n), pairs[j].0) == Some(pairs[j].1)
  {
    var prev := PutAll(pairs, n - 1);
    if j == n - 1 {
      PutFinds(prev, pairs[j].0, pairs[j].1);
    } else {
      LastPutWins(pairs, n - 1, j);
      PutKeepsOthers(prev, pairs[n - 1].0, pairs[n - 1].1, pairs[j].0);
    }
  }

  /** Every email of the Freestyle rows has an entry built from the last row with that email. */
  lemma FreestyleLastRowWins(rows: seq<FreestyleRow>, show: Value -> string, j: nat)
    requires j < |rows|
    requires forall k :: j < k < |rows| ==> rows[k].email != rows[j].email
    ensures FindExpert(PutAll(FreestylePairs(rows, show), |rows|), rows[j].email) == Some(FreestyleExpert(rows[j], show))
  {
    LastPutWins(FreestylePairs(rows, show), |rows|, j);
  }

  // ----- search_salesforce_experts -----

  /** A row of the Salesforce opportunity query. */
  datatype OpportunityRow = OpportunityRow(id: string, name: Value, account: Value, amount: Value,
                                           stage: Value, closeDate: Value, industry: Value,
                                           ownerName: Value, ownerEmail: Value)

  /** A search the source gets through without raising: a string, a list of strings, or a
      dictionary (iterated over its keys). Iterating a boolean or an integer raises
      `TypeError`, and `term.strip()` on a non-string item raises `AttributeError`. */
  predicate Searchable(search: Value) {
    search.VStr? || (search.VList? && AllStrings(search.items)) || search.VDict?
  }

  /** The terms searched: a string is split on commas and each piece stripped; a list is
      taken as it is, and a dictionary gives its keys. */
  function SearchTerms(search: Value): (ts: seq<string>)
    requires Searchable(search)
    ensures search.VList? ==> |ts| == |search.items| && forall i :: 0 <= i < |ts| ==> search.items[i] == VStr(ts[i])
    ensures search.VDict? ==> ts == Keys(search.entries)
    ensures search.VStr? ==> |ts| == |Split(search.s, ',')|
  {
    if search.VStr? then
      var parts := Split(search.s, ',');
      seq(|parts|, i requires 0 <= i < |parts| => Strip(parts[i]))
    else if search.VList? then Strs(search.items)
    else Keys(search.entries)
  }

  /** `f"%{term.strip()}%"` */
  function Pattern(term: string): string {
    "%" + Strip(term) + "%"
  }

  /** The four placeholders of one term's query. */
  function Patterns(term: string): seq<string> {
    [Pattern(term), Pattern(term), Pattern(term), Pattern(term)]
  }

  /** The rows of every query issued for `terms[..n]`: one query per term of at least two
      characters once stripped, its four placeholders all given the term's pattern. */
  function Collected(terms: seq<string>, rowsFor: seq<string> -> seq<OpportunityRow>, n: nat): seq<OpportunityRow>
    requires n <= |terms|
  {
    if n == 0 then []
    else if |Strip(terms[n - 1])| >= 2 then
      Collected(terms, rowsFor, n - 1) + rowsFor(Patterns(terms[n - 1]))
    else Collected(terms, rowsFor, n - 1)
  }

  function Ids(rows: seq<OpportunityRow>): set<string> {
    set i | 0 <= i < |rows| :: rows[i].id
  }

  /** `drop_duplicates(subset=['opportunity_id'])` on `rows[..n]`: the first row of each id. */
  function Dedup(rows: seq<OpportunityRow>, n: nat): (r: seq<OpportunityRow>)
    requires n <= |rows|
    ensures Ids(r) == Ids(rows[..n])
    ensures forall i, j :: 0 <= i < j < |r| ==> r[i].id != r[j].id
    ensures forall i :: 0 <= i < |r| ==> r[i] in rows[..n]
  {
    if n == 0 then []
    else
      var prev := Dedup(rows, n - 1);
      assert rows[..n] == rows[..n - 1] + [rows[n - 1]];
      IdsAppend(rows[..n - 1], rows[n - 1]);
      if rows[n - 1].id in Ids(prev) then prev
      else
        IdsAppend(prev, rows[n - 1]);
        prev + [rows[n - 1]]
  }

  lemma IdsAppend(rows: seq<OpportunityRow>, x: OpportunityRow)
    ensures Ids(rows + [x]) == Ids(rows) + {x.id}
  {
    var r := rows + [x];
    forall id | id in Ids(rows) + {x.id}
      ensures id in Ids(r)
    {
      if id == x.id {
        assert r[|rows|].id == id;
      } else {
        var i :| 0 <= i < |rows| && rows[i].id == id;
        assert r[i].id == id;
      }
    }
    forall id | id in Ids(r)
      ensures id in Ids(rows) + {x.id}
    {
      var i :| 0 <= i < |r| && r[i].id == id;
      if i < |rows| {
        assert rows[i].id == id;
      }
    }
  }

  function ToOpportunity(row: OpportunityRow): Opportunity {
    Opportunity(row.id, row.name, row.account, if Truthy(row.amount) then row.amount else VInt(0),
                row.stage, row.closeDate, row.industry)
  }

  /** A row whose owner email is missing or empty is skipped. */
  predicate HasOwner(row: OpportunityRow) {
    row.ownerEmail.VStr? && row.ownerEmail.s != []
  }

  /** The expert entry after adding one row of its owner. */
  function AddOpportunity(existing: Option<Expert>, row: OpportunityRow): (e: Expert)
    requires HasOwner(row)
    ensures |OpportunitiesOf(e)| >= 1 && OpportunitiesOf(e)[|OpportunitiesOf(e)| - 1] == ToOpportunity(row)
  {
    var e := if existing.Some? then existing.value
      else Expert(if row.ownerName.VStr? && row.ownerName.s != [] then row.ownerName.s else "Unknown",
                  row.ownerEmail.s, SkillBuckets([], []), None, None, None, Some([]), Some({}), 0);
    e.(opportunities := Some(OpportunitiesOf(e) + [ToOpportunity(row)]),
       industries := Some(if row.industry.VStr? && row.industry.s != [] then IndustriesOf(e) + {row.industry.s}
                          else IndustriesOf(e)))
  }

  /** The experts made from `rows[..n]`, before scoring. */
  function Owners(rows: seq<OpportunityRow>, n: nat): (d: seq<(string, Expert)>)
    requires n <= |rows|
    ensures UniqueExperts(d)
  {
    if n == 0 then []
    else
      var prev := Owners(rows, n - 1);
      var row := rows[n - 1];
      if HasOwner(row) then Put(prev, row.ownerEmail.s, AddOpportunity(FindExpert(prev, row.ownerEmail.s), row))
      else prev
  }

  /** `min(100, 10 * opportunities + 5 * industries)` */
  function SalesforceScore(e: Expert): (r: int)
    ensures r <= 100
    ensures |OpportunitiesOf(e)| >= 1 ==> r >= 10
  {
    Min(100, 10 * |OpportunitiesOf(e)| + 5 * |IndustriesOf(e)|)
  }

  function Scored(d: seq<(string, Expert)>): (r: seq<(string, Expert)>)
    ensures |r| == |d|
    ensures forall j :: 0 <= j < |r| ==>
      r[j].0 == d[j].0 && r[j].1 == d[j].1.(relevance := SalesforceScore(d[j].1))
  {
    seq(|d|, j requires 0 <= j < |d| => (d[j].0, d[j].1.(relevance := SalesforceScore(d[j].1))))
  }

  /** `search_salesforce_experts(search)` with each query answered by `rowsFor`. */
  method SearchSalesforceExperts(search: Value, rowsFor: seq<string> -> seq<OpportunityRow>)
    returns (experts: seq<(string, Expert)>)
    ensures !Truthy(search) ==> experts == []
    ensures Truthy(search) && !Searchable(search) ==> experts == []
    ensures Truthy(search) && Searchable(search) ==> experts == SalesforceExperts(SearchTerms(search), rowsFor)
  {
    if !Truthy(search) {
      return [];
    }
    if !Searchable(search) {
      // the exception handler's `return {}`
      return [];
    }
    var terms := SearchTerms(search);
    var collected := CollectRows(terms, rowsFor);
    var rows := Dedup(collected, |collected|);
    var owners := GroupOwners(rows);
    experts := ScoreAll(owners);
  }

  /** The experts found for `terms`: the rows of all queries, de-duplicated, grouped by
      owner and scored. */
  function SalesforceExperts(terms: seq<string>, rowsFor: seq<string> -> seq<OpportunityRow>): seq<(string, Expert)> {
    var collected := Collected(terms, rowsFor, |terms|);
    var rows := Dedup(collected, |collected|);
    Scored(Owners(rows, |rows|))
  }

  method CollectRows(terms: seq<string>, rowsFor: seq<string> -> seq<OpportunityRow>)
    returns (collected: seq<OpportunityRow>)
    ensures collected == Collected(terms, rowsFor, |terms|)
  {
    collected := [];
    for t := 0 to |terms|
      invariant collected == Collected(terms, rowsFor, t)
    {
      if |Strip(terms[t])| >= 2 {
        collected := collected + rowsFor(Patterns(terms[t]));
      }
    }
  }

  method GroupOwners(rows: seq<OpportunityRow>) returns (owners: seq<(string, Expert)>)
    ensures owners == Owners(rows, |rows|)
  {
    owners := [];
    for i := 0 to |rows|
      invariant owners == Owners(rows, i)
    {
      var row := rows[i];
      if HasOwner(row) {
        owners := Put(owners, row.ownerEmail.s, AddOpportunity(FindExpert(owners, row.ownerEmail.s), row));
      }
    }
  }

  method ScoreAll(owners: seq<(string, Expert)>) returns (experts: seq<(string, Expert)>)
    ensures experts == Scored(owners)
  {
    experts := [];
    for j := 0 to |owners|
      invariant experts == Scored(owners[..j])
    {
      assert owners[..j + 1] == owners[..j] + [owners[j]];
      experts := experts + [(owners[j].0, owners[j].1.(relevance := SalesforceScore(owners[j].1)))];
    }
    assert owners[..|owners|] == owners;
  }

  /** Every Salesforce expert is keyed by a non-empty owner email, once, and holds at
      least one opportunity. */
  lemma {:induction false} OwnersShape(rows: seq<OpportunityRow>, n: nat)
    requires n <= |rows|
    ensures forall e :: e in Owners(rows, n) ==> e.0 != [] && |OpportunitiesOf(e.1)| >= 1
  {
    if n > 0 {
      OwnersShape(rows, n - 1);
    }
  }

  /** Each Salesforce expert's score is between 10 and 100. */
  lemma SalesforceScoreBounds(terms: seq<string>, rowsFor: seq<string> -> seq<OpportunityRow>)
    ensures var d := SalesforceExperts(terms, rowsFor);
      UniqueExperts(d) && forall j :: 0 <= j < |d| ==> d[j].0 != [] && 10 <= d[j].1.relevance <= 100
  {
    var collected := Collected(terms, rowsFor, |terms|);
    var rows := Dedup(collected, |collected|);
    OwnersShape(rows, |rows|);
  }

  // ----- search_competitive_experience -----

  /** A row of the competitive query (its owner email is never null). */
  datatype CompetitiveRow = CompetitiveRow(ownerName: Value, ownerEmail: string, opportunity: Opportunity)

  datatype CompetitiveExpert = CompetitiveExpert(name: Value, email: string, opportunities: seq<Opportunity>,
                                                 relevance: int)

  function CompetitivePattern(competitor: string): string {
    "%" + competitor + "%"
  }

  /** The competitive experts of `rows[..n]` before scoring, one per owner email in the
      order first seen, each with its opportunities in row order. */
  function CompetitiveOwners(rows: seq<CompetitiveRow>, n: nat): (d: seq<CompetitiveExpert>)
    requires n <= |rows|
    ensures forall i, j :: 0 <= i < j < |d| ==> d[i].email != d[j].email
    ensures forall j :: 0 <= j < |d| ==> |d[j].opportunities| >= 1
  {
    if n == 0 then []
    else
      var prev := CompetitiveOwners(rows, n - 1);
      var r := AddCompetitive(prev, rows[n - 1]);
      assert forall j :: 0 <= j < |prev| ==> r[j].email == prev[j].email;
      r
  }

  /** One row grouped in: a new owner's first opportunity, or one more for a known owner. */
  function AddCompetitive(prev: seq<CompetitiveExpert>, row: CompetitiveRow): (r: seq<CompetitiveExpert>)
    ensures CompetitiveIndex(prev, row.ownerEmail) < 0 ==> |r| == |prev| + 1 && r[|prev|].email == row.ownerEmail
    ensures CompetitiveIndex(prev, row.ownerEmail) >= 0 ==> |r| == |prev|
  {
    var i := CompetitiveIndex(prev, row.ownerEmail);
    if i < 0 then prev + [CompetitiveExpert(row.ownerName, row.ownerEmail, [row.opportunity], 0)]
    else prev[i := prev[i].(opportunities := prev[i].opportunities + [row.opportunity])]
  }

  function CompetitiveIndex(d: seq<CompetitiveExpert>, email: string): (i: int)
    ensures -1 <= i < |d|
    ensures i >= 0 ==> d[i].email == email
    ensures i < 0 ==> forall j :: 0 <= j < |d| ==> d[j].email != email
  {
    if |d| == 0 then -1
    else if d[|d| - 1].email == email then |d| - 1
    else CompetitiveIndex(d[..|d| - 1], email)
  }

  /** `min(100, 20 * competitive opportunities)` */
  function CompetitiveScore(e: CompetitiveExpert): (r: int)
    ensures |e.opportunities| >= 1 ==> 20 <= r <= 100
  {
    Min(100, 20 * |e.opportunities|)
  }

  /** `search_competitive_experience(competitor)` with the query answered by `rowsFor`:
      nothing for an empty competitor, otherwise one scored entry per owner. */
  method SearchCompetitiveExperience(competitor: string, rowsFor: seq<string> -> seq<CompetitiveRow>)
    returns (experts: seq<CompetitiveExpert>)
    ensures competitor == [] ==> experts == []
    ensures competitor != [] ==> experts == CompetitiveExperts(rowsFor([CompetitivePattern(competitor), CompetitivePattern(competitor)]))
  {
    if competitor == [] {
      return [];
    }
    var rows := rowsFor([CompetitivePattern(competitor), CompetitivePattern(competitor)]);
    var owners := GroupCompetitive(rows);
    experts := ScoreCompetitive(owners);
  }

  method GroupCompetitive(rows: seq<CompetitiveRow>) returns (owners: seq<CompetitiveExpert>)
    ensures owners == CompetitiveOwners(rows, |rows|)
  {
    owners := [];
    for i := 0 to |rows|
      invariant owners == CompetitiveOwners(rows, i)
    {
      var row := rows[i];
      var k := CompetitiveIndex(owners, row.ownerEmail);
      if k < 0 {
        owners := owners + [CompetitiveExpert(row.ownerName, row.ownerEmail, [row.opportunity], 0)];
      } else {
        owners := owners[k := owners[k].(opportunities := owners[k].opportunities + [row.opportunity])];
      }
    }
  }

  method ScoreCompetitive(owners: seq<CompetitiveExpert>) returns (experts: seq<CompetitiveExpert>)
    ensures experts == ScoredCompetitive(owners)
  {
    experts := [];
    for j := 0 to |owners|
      invariant experts == ScoredCompetitive(owners[..j])
    {
      assert owners[..j + 1] == owners[..j] + [owners[j]];
      experts := experts + [owners[j].(relevance := CompetitiveScore(owners[j]))];
    }
    assert owners[..|owners|] == owners;
  }

  function ScoredCompetitive(d: seq<CompetitiveExpert>): (r: seq<CompetitiveExpert>)
    ensures |r| == |d|
    ensures forall j :: 0 <= j < |r| ==> r[j] == d[j].(relevance := CompetitiveScore(d[j]))
  {
    seq(|d|, j requires 0 <= j < |d| => d[j].(relevance := CompetitiveScore(d[j])))
  }

  function CompetitiveExperts(rows: seq<CompetitiveRow>): seq<CompetitiveExpert> {
    ScoredCompetitive(CompetitiveOwners(rows, |rows|))
  }

  /** Each competitive expert appears once, scored between 20 and 100. */
  lemma CompetitiveScoreBounds(rows: seq<CompetitiveRow>)
    ensures var d := CompetitiveExperts(rows);
      (forall i, j :: 0 <= i < j < |d| ==> d[i].email != d[j].email)
      && forall j :: 0 <= j < |d| ==> 20 <= d[j].relevance <= 100
  {
    var owners := CompetitiveOwners(rows, |rows|);
    assert forall j :: 0 <= j < |owners| ==> |owners[j].opportunities| >= 1;
  }

  // ----- find_experts_for_company -----

  /** The entry for an id found by both searches: the existing entry with the Salesforce
      opportunities appended, the industries added and the higher relevance. An id new to
      the merge takes the Salesforce entry as it is. */
  function Combine(existing: Option<Expert>, e: Expert): (r: Expert)
    ensures existing.None? ==> r == e
    ensures existing.Some? ==>
      r.relevance == Max(existing.value.relevance, e.relevance)
      && r.name == existing.value.name && r.email == existing.value.email
      && OpportunitiesOf(r) == OpportunitiesOf(existing.value) + OpportunitiesOf(e)
      && IndustriesOf(r) == IndustriesOf(existing.value) + IndustriesOf(e)
  {
    if existing.None? then e
    else existing.value.(opportunities := Some(OpportunitiesOf(existing.value) + OpportunitiesOf(e)),
                         industries := Some(IndustriesOf(existing.value) + IndustriesOf(e)),
                         relevance := Max(existing.value.relevance, e.relevance))
  }

  function MergeOne(d: seq<(string, Expert)>, entry: (string, Expert)): (r: seq<(string, Expert)>)
    requires UniqueExperts(d)
    ensures UniqueExperts(r)
  {
    Put(d, entry.0, Combine(FindExpert(d, entry.0), entry.1))
  }

  /** The Freestyle entries `all` after merging in `sf[..n]`. */
  function Merged(all: seq<(string, Expert)>, sf: seq<(string, Expert)>, n: nat): (r: seq<(string, Expert)>)
    requires UniqueExperts(all) && n <= |sf|
    ensures UniqueExperts(r)
  {
    if n == 0 then all else MergeOne(Merged(all, sf, n - 1), sf[n - 1])
  }

  /** The merge as written: extending the `opportunities` of a Freestyle entry, which has
      none, raises `KeyError`, and the handler returns `{}` (`None` here). */
  function MergedAsWritten(all: seq<(string, Expert)>, sf: seq<(string, Expert)>, n: nat)
    : (r: Option<seq<(string, Expert)>>)
    requires UniqueExperts(all) && n <= |sf|
  {
    if n == 0 then Some(all)
    else
      var prev := MergedAsWritten(all, sf, n - 1);
      if prev.None? || !UniqueExperts(prev.value) then None
      else
        var existing := FindExpert(prev.value, sf[n - 1].0);
        if existing.Some? && existing.value.opportunities.None? then None
        else Some(MergeOne(prev.value, sf[n - 1]))
  }

  /** An id none of `sf[..n]` carries keeps its Freestyle entry, or stays absent. */
  lemma {:induction false} MergedUntouched(all: seq<(string, Expert)>, sf: seq<(string, Expert)>, n: nat, k: string)
    requires UniqueExperts(all) && n <= |sf|
    requires forall i :: 0 <= i < n ==> sf[i].0 != k
    ensures FindExpert(Merged(all, sf, n), k) == FindExpert(all, k)
  {
    if n > 0 {
      MergedUntouched(all, sf, n - 1, k);
      var prev := Merged(all, sf, n - 1);
      PutKeepsOthers(prev, sf[n - 1].0, Combine(FindExpert(prev, sf[n - 1].0), sf[n - 1].1), k);
    }
  }

  /** Each Salesforce id ends up with its Salesforce entry combined with the Freestyle entry
      for the same id, if any. */
  lemma {:induction false} MergedCombines(all: seq<(string, Expert)>, sf: seq<(string, Expert)>, n: nat, j: nat)
    requires UniqueExperts(all) && UniqueExperts(sf) && j < n <= |sf|
    ensures FindExpert(Merged(all, sf, n), sf[j].0) == Some(Combine(FindExpert(all, sf[j].0), sf[j].1))
  {
    var prev := Merged(all, sf, n - 1);
    var k := sf[j].0;
    if j == n - 1 {
      MergedUntouched(all, sf, n - 1, k);
      PutFinds(prev, k, Combine(FindExpert(prev, k), sf[j].1));
    } else {
      MergedCombines(all, sf, n - 1, j);
      PutKeepsOthers(prev, sf[n - 1].0, Combine(FindExpert(prev, sf[n - 1].0), sf[n - 1].1), k);
    }
  }

  /** The merge holds exactly the ids of both searches. */
  lemma {:induction false} MergedKeys(all: seq<(string, Expert)>, sf: seq<(string, Expert)>, n: nat)
    requires UniqueExperts(all) && n <= |sf|
    ensures ExpertKeys(Merged(all, sf, n)) == ExpertKeys(all) + ExpertKeys(sf[..n])
  {
    if n > 0 {
      MergedKeys(all, sf, n - 1);
      MergedKeysStep(all, sf, n);
    } else {
      assert ExpertKeys(sf[..0]) == {};
      assert Merged(all, sf, n) == all;
    }
  }

  lemma MergedKeysStep(all: seq<(string, Expert)>, sf: seq<(string, Expert)>, n: nat)
    requires UniqueExperts(all) && 0 < n <= |sf|
    requires ExpertKeys(Merged(all, sf, n - 1)) == ExpertKeys(all) + ExpertKeys(sf[..n - 1])
    ensures ExpertKeys(Merged(all, sf, n)) == ExpertKeys(all) + ExpertKeys(sf[..n])
  {
    var prev := Merged(all, sf, n - 1);
    var k := sf[n - 1].0;
    assert ExpertKeys(Merged(all, sf, n)) == ExpertKeys(prev) + {k} by {
      PutKeys(prev, k, Combine(FindExpert(prev, k), sf[n - 1].1));
    }
    KeysPrefix(sf, n);
    UnionAssoc(ExpertKeys(all), ExpertKeys(sf[..n - 1]), {k});
  }

  lemma KeysPrefix(d: seq<(string, Expert)>, n: nat)
    requires 0 < n <= |d|
    ensures ExpertKeys(d[..n]) == ExpertKeys(d[..n - 1]) + {d[n - 1].0}
  {
    assert d[..n] == d[..n - 1] + [d[n - 1]];
    KeysAppend(d[..n - 1], d[n - 1]);
  }

  lemma UnionAssoc(a: set<string>, b: set<string>, c: set<string>)
    ensures (a + b) + c == a + (b + c)
  {
  }

  lemma KeysAppend(d: seq<(string, Expert)>, e: (string, Expert))
    ensures ExpertKeys(d + [e]) == ExpertKeys(d) + {e.0}
  {
    var r := d + [e];
    assert r[|d|].0 == e.0;
    forall y | y in ExpertKeys(d)
      ensures y in ExpertKeys(r)
    {
      var m :| 0 <= m < |d| && d[m].0 == y;
      assert r[m].0 == y;
    }
  }

  /** As written, an id found by both searches empties the whole result: the first such
      Salesforce id hits a Freestyle entry, which has no opportunities. */
  lemma {:induction false} OverlapEmptiesAsWritten(all: seq<(string, Expert)>, sf: seq<(string, Expert)>, n: nat, j: nat)
    requires UniqueExperts(all) && UniqueExperts(sf) && j < n <= |sf|
    requires forall e :: e in all ==> e.1.opportunities.None?
    requires FindExpert(all, sf[j].0).Some?
    ensures MergedAsWritten(all, sf, n) == None
  {
    if j < n - 1 {
      OverlapEmptiesAsWritten(all, sf, n - 1, j);
      AsWrittenStuck(all, sf, n);
    } else if MergedAsWritten(all, sf, n - 1).None? {
      AsWrittenStuck(all, sf, n);
    } else {
      assert j == n - 1;
      var k := sf[n - 1].0;
      AsWrittenAgrees(all, sf, n - 1);
      assert FindExpert(all, k).value.opportunities.None? by {
        FindIn(all, k);
      }
      MergedFresh(all, sf, n - 1);
      AsWrittenHits(all, sf, n);
    }
  }

  /** The merge as written fails on an id whose entry so far has no opportunities. */
  lemma AsWrittenHits(all: seq<(string, Expert)>, sf: seq<(string, Expert)>, n: nat)
    requires UniqueExperts(all) && 0 < n <= |sf|
    requires MergedAsWritten(all, sf, n - 1) == Some(Merged(all, sf, n - 1))
    requires FindExpert(Merged(all, sf, n - 1), sf[n - 1].0).Some?
    requires FindExpert(Merged(all, sf, n - 1), sf[n - 1].0).value.opportunities.None?
    ensures MergedAsWritten(all, sf, n).None?
  {
  }

  /** Once the merge as written has failed it stays failed. */
  lemma AsWrittenStuck(all: seq<(string, Expert)>, sf: seq<(string, Expert)>, n: nat)
    requires UniqueExperts(all) && 0 < n <= |sf|
    requires MergedAsWritten(all, sf, n - 1).None?
    ensures MergedAsWritten(all, sf, n).None?
  {
  }

  /** The `m`-th Salesforce id, distinct from those before it, finds its Freestyle entry
      (or none) in the merge of the earlier ones. */
  lemma MergedFresh(all: seq<(string, Expert)>, sf: seq<(string, Expert)>, m: nat)
    requires UniqueExperts(all) && UniqueExperts(sf) && m < |sf|
    ensures FindExpert(Merged(all, sf, m), sf[m].0) == FindExpert(all, sf[m].0)
  {
    DistinctBefore(sf, m);
    MergedUntouched(all, sf, m, sf[m].0);
  }

  lemma DistinctBefore(sf: seq<(string, Expert)>, m: nat)
    requires UniqueExperts(sf) && m < |sf|
    ensures forall i :: 0 <= i < m ==> sf[i].0 != sf[m].0
  {
  }

  /** The merge as written goes on past an id with no entry so far. */
  lemma AsWrittenMisses(all: seq<(string, Expert)>, sf: seq<(string, Expert)>, n: nat)
    requires UniqueExperts(all) && 0 < n <= |sf|
    requires AsWrittenOk(all, sf, n - 1)
    requires FindExpert(Merged(all, sf, n - 1), sf[n - 1].0).None?
    ensures AsWrittenOk(all, sf, n)
  {
  }

  /** Where the merge as written does not fail, it agrees with the corrected merge. */
  lemma {:induction false} AsWrittenAgrees(all: seq<(string, Expert)>, sf: seq<(string, Expert)>, n: nat)
    requires UniqueExperts(all) && n <= |sf|
    ensures MergedAsWritten(all, sf, n).Some? ==> MergedAsWritten(all, sf, n) == Some(Merged(all, sf, n))
  {
    if n > 0 {
      AsWrittenAgrees(all, sf, n - 1);
    }
  }

  /** Without shared ids the merge as written succeeds. */
  lemma DisjointAsWrittenSucceeds(all: seq<(string, Expert)>, sf: seq<(string, Expert)>, n: nat)
    requires UniqueExperts(all) && UniqueExperts(sf) && n <= |sf|
    requires forall i :: 0 <= i < |sf| ==> FindExpert(all, sf[i].0).None?
    ensures MergedAsWritten(all, sf, n) == Some(Merged(all, sf, n))
  {
    DisjointPrefix(all, sf, n);
  }

  /** The merge as written of `sf[..n]` succeeds with the corrected result. */
  predicate AsWrittenOk(all: seq<(string, Expert)>, sf: seq<(string, Expert)>, n: nat)
    requires UniqueExperts(all) && n <= |sf|
  {
    MergedAsWritten(all, sf, n).Some? && MergedAsWritten(all, sf, n).value == Merged(all, sf, n)
  }

  lemma {:induction false} DisjointPrefix(all: seq<(string, Expert)>, sf: seq<(string, Expert)>, n: nat)
    requires UniqueExperts(all) && UniqueExperts(sf) && n <= |sf|
    requires forall i :: 0 <= i < |sf| ==> FindExpert(all, sf[i].0).None?
    ensures AsWrittenOk(all, sf, n)
  {
    if n > 0 {
      DisjointPrefix(all, sf, n - 1);
      assert FindExpert(Merged(all, sf, n - 1), sf[n - 1].0).None? by {
        MergedFresh(all, sf, n - 1);
      }
      AsWrittenMisses(all, sf, n);
    }
  }

  /** `dict(sorted(d.items(), key=relevance, reverse=True))`: a stable sort, highest
      relevance first. */
  function SortByRelevance(d: seq<(string, Expert)>): (r: seq<(string, Expert)>)
    ensures |r| == |d|
  {
    if d == [] then [] else InsertByRelevance(d[0], SortByRelevance(d[1..]))
  }

  /** Insert `x` before the first entry whose relevance is not higher than its own. */
  function InsertByRelevance(x: (string, Expert), s: seq<(string, Expert)>): (r: seq<(string, Expert)>)
    ensures |r| == |s| + 1
  {
    if s == [] || x.1.relevance >= s[0].1.relevance then [x] + s
    else [s[0]] + InsertByRelevance(x, s[1..])
  }

  predicate Descending(s: seq<(string, Expert)>) {
    forall i, j :: 0 <= i < j < |s| ==> s[i].1.relevance >= s[j].1.relevance
  }

  /** The entries of relevance `v`, in order. */
  function WithRelevance(s: seq<(string, Expert)>, v: int): seq<(string, Expert)> {
    if s == [] then []
    else if s[0].1.relevance == v then [s[0]] + WithRelevance(s[1..], v)
    else WithRelevance(s[1..], v)
  }

  lemma {:induction false} InsertKeepsEntries(x: (string, Expert), s: seq<(string, Expert)>)
    ensures multiset(InsertByRelevance(x, s)) == multiset(s) + multiset{x}
  {
    if s != [] && x.1.relevance < s[0].1.relevance {
      InsertKeepsEntries(x, s[1..]);
      assert s == [s[0]] + s[1..];
    }
  }

  lemma {:induction false} InsertStable(x: (string, Expert), s: seq<(string, Expert)>, v: int)
    ensures WithRelevance(InsertByRelevance(x, s), v) ==
            (if x.1.relevance == v then [x] + WithRelevance(s, v) else WithRelevance(s, v))
  {
    var r := InsertByRelevance(x, s);
    if s == [] || x.1.relevance >= s[0].1.relevance {
      assert r[1..] == s;
    } else {
      InsertStable(x, s[1..], v);
      assert r[1..] == InsertByRelevance(x, s[1..]);
    }
  }

  lemma {:induction false} InsertDescending(x: (string, Expert), s: seq<(string, Expert)>)
    requires Descending(s)
    ensures Descending(InsertByRelevance(x, s))
  {
    if s != [] && x.1.relevance < s[0].1.relevance {
      var t := InsertByRelevance(x, s[1..]);
      InsertDescending(x, s[1..]);
      InsertKeepsEntries(x, s[1..]);
      var r := InsertByRelevance(x, s);
      assert r == [s[0]] + t;
      forall j | 0 <= j < |t|
        ensures s[0].1.relevance >= t[j].1.relevance
      {
        assert t[j] in multiset(s[1..]) + multiset{x};
        if t[j] != x {
          var m :| 0 <= m < |s[1..]| && s[1..][m] == t[j];
          assert s[m + 1] == t[j];
        }
      }
    }
  }

  /** The sort orders by relevance, highest first, keeps every entry once, and keeps the
      input order among entries of equal relevance. */
  lemma {:induction false} SortByRelevanceSpec(d: seq<(string, Expert)>)
    ensures Descending(SortByRelevance(d))
    ensures multiset(SortByRelevance(d)) == multiset(d)
    ensures forall v :: WithRelevance(SortByRelevance(d), v) == WithRelevance(d, v)
  {
    if d != [] {
      SortByRelevanceSpec(d[1..]);
      InsertDescending(d[0], SortByRelevance(d[1..]));
      InsertKeepsEntries(d[0], SortByRelevance(d[1..]));
      forall v
        ensures WithRelevance(SortByRelevance(d), v) == WithRelevance(d, v)
      {
        InsertStable(d[0], SortByRelevance(d[1..]), v);
      }
      assert d == [d[0]] + d[1..];
    }
  }

  /** `find_experts_for_company(website, terms)` with the corrected merge: nothing for empty
      terms; otherwise both searches, merged by id and sorted by relevance. */
  method FindExpertsForCompany(terms: string, freestyleRows: seq<string> -> seq<FreestyleRow>,
                               salesforceRows: seq<string> -> seq<OpportunityRow>, show: Value -> string)
    returns (experts: seq<(string, Expert)>)
    ensures terms == [] ==> experts == []
    ensures terms != [] ==> experts == FoundExperts(terms, freestyleRows, salesforceRows, show)
  {
    if terms == [] {
      return [];
    }
    var freestyle := SearchFreestyleExperts(terms, freestyleRows, show);
    var salesforce := SearchSalesforceExperts(VStr(terms), salesforceRows);
    var all := MergeExperts(freestyle, salesforce);
    experts := SortByRelevance(all);
  }

  function FoundExperts(terms: string, freestyleRows: seq<string> -> seq<FreestyleRow>,
                        salesforceRows: seq<string> -> seq<OpportunityRow>, show: Value -> string)
    : seq<(string, Expert)>
  {
    var sf := SalesforceExperts(SearchTerms(VStr(terms)), salesforceRows);
    SortByRelevance(Merged(FreestyleExperts(terms, freestyleRows, show), sf, |sf|))
  }

  /** The merge loop: each Salesforce entry is added, or combined with the entry already
      held for its id. */
  method MergeExperts(freestyle: seq<(string, Expert)>, salesforce: seq<(string, Expert)>)
    returns (all: seq<(string, Expert)>)
    requires UniqueExperts(freestyle)
    ensures all == Merged(freestyle, salesforce, |salesforce|)
  {
    all := freestyle;
    for i := 0 to |salesforce|
      invariant all == Merged(freestyle, salesforce, i)
    {
      var (id, entry) := salesforce[i];
      var existing := FindExpert(all, id);
      if existing.Some? {
        all := Put(all, id, Combine(existing, entry));
      } else {
        all := Put(all, id, entry);
      }
    }
  }
}
