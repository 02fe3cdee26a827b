/** Python string primitives the application relies on (`str.lower`, `strip`, `find`,
    `rfind`, `replace`, `split`, `join`, `title`, `capitalize`, `in`), restricted to the
    ASCII case and whitespace tables. */
module Text {

  predicate IsUpperAscii(c: char) { 'A' <= c <= 'Z' }
  predicate IsLowerAscii(c: char) { 'a' <= c <= 'z' }
  /** A character Python calls "cased": it has an upper and a lower form. */
  predicate IsCased(c: char) { IsUpperAscii(c) || IsLowerAscii(c) }

  /** The characters `str.isspace` accepts in the ASCII range. */
  predicate IsSpace(c: char) {
    c == ' ' || c == '\t' || c == '\n' || c == '\r' || c == '\U{0B}' || c == '\U{0C}'
    || c == '\U{1C}' || c == '\U{1D}' || c == '\U{1E}' || c == '\U{1F}'
  }

  /** A character the regular expression class `\w` matches in the ASCII range. */
  predicate IsWordChar(c: char) { IsCased(c) || '0' <= c <= '9' || c == '_' }

  function ToLowerChar(c: char): (d: char)
    ensures !IsUpperAscii(d)
    ensures IsCased(d) <==> IsCased(c)
    ensures !IsUpperAscii(c) ==> d == c
  {
    if IsUpperAscii(c) then (c as int + 32) as char else c
  }

  function ToUpperChar(c: char): (d: char)
    ensures !IsLowerAscii(d)
    ensures IsCased(d) <==> IsCased(c)
    ensures !IsLowerAscii(c) ==> d == c
  {
    if IsLowerAscii(c) then (c as int - 32) as char else c
  }

  /** `s.lower()` */
  function Lower(s: string): (r: string)
    ensures |r| == |s| && forall i :: 0 <= i < |s| ==> r[i] == ToLowerChar(s[i])
  {
    seq(|s|, i requires 0 <= i < |s| => ToLowerChar(s[i]))
  }

  /** `s.upper()` */
  function Upper(s: string): (r: string)
    ensures |r| == |s| && forall i :: 0 <= i < |s| ==> r[i] == ToUpperChar(s[i])
  {
    seq(|s|, i requires 0 <= i < |s| => ToUpperChar(s[i]))
  }

  /** Lower-casing forgets every earlier change of case: `s.upper().lower() == s.lower()`. */
  lemma LowerOfUpper(s: string)
    ensures Lower(Upper(s)) == Lower(s)
  {
    forall i | 0 <= i < |s|
      ensures Lower(Upper(s))[i] == Lower(s)[i]
    {
      var c := s[i];
      if IsLowerAscii(c) {
        assert ToLowerChar(ToUpperChar(c)) as int == c as int;
      }
    }
  }

  lemma LowerIdempotent(s: string)
    ensures Lower(Lower(s)) == Lower(s)
  {
  }

  predicate StartsWith(s: string, prefix: string) {
    |prefix| <= |s| && s[..|prefix|] == prefix
  }

  /** `sub` occurs in `s` starting at index `i`. */
  predicate OccursAt(s: string, sub: string, i: int) {
    0 <= i && i + |sub| <= |s| && s[i..i + |sub|] == sub
  }

  /** Python's `sub in s`. */
  predicate Contains(s: string, sub: string) {
    exists i | 0 <= i <= |s| :: OccursAt(s, sub, i)
  }

  /** `s.find(c)` for a single character: the first index of `c`, or -1. */
  function IndexOf(s: string, c: char): (r: int)
    ensures -1 <= r < |s|
    ensures r >= 0 ==> s[r] == c
    ensures forall j :: 0 <= j < |s| && (r == -1 || j < r) ==> s[j] != c
  {
    FirstFrom(s, c, 0)
  }

  function FirstFrom(s: string, c: char, from: nat): (r: int)
    requires from <= |s|
    ensures r == -1 || (from <= r < |s| && s[r] == c)
    ensures forall j :: from <= j < |s| && (r == -1 || j < r) ==> s[j] != c
    decreases |s| - from
  {
    if from == |s| then -1
    else if s[from] == c then from
    else FirstFrom(s, c, from + 1)
  }

  /** `s.rfind(c)` for a single character: the last index of `c`, or -1. */
  function LastIndexOf(s: string, c: char): (r: int)
    ensures -1 <= r < |s|
    ensures r >= 0 ==> s[r] == c
    ensures forall j :: 0 <= j < |s| && r < j ==> s[j] != c
  {
    LastBefore(s, c, |s|)
  }

  function LastBefore(s: string, c: char, upto: nat): (r: int)
    requires upto <= |s|
    ensures -1 <= r < upto && (r >= 0 ==> s[r] == c)
    ensures forall j :: 0 <= j < upto && r < j ==> s[j] != c
  {
    if upto == 0 then -1
    else if s[upto - 1] == c then upto - 1
    else LastBefore(s, c, upto - 1)
  }

  /** `s.find(sub, from)`: the first index at or after `from` where `sub` occurs, or -1. */
  function FindFrom(s: string, sub: string, from: nat): (r: int)
    decreases |s| - from
    ensures r == -1 || (from <= r && OccursAt(s, sub, r))
    ensures forall i :: from <= i && (r == -1 || i < r) ==> !OccursAt(s, sub, i)
  {
    if from + |sub| > |s| then -1
    else if s[from..from + |sub|] == sub then from
    else FindFrom(s, sub, from + 1)
  }

  /** `s[i:j]` for indices already inside the string: empty when `j <= i`. */
  function Slice(s: string, i: nat, j: nat): (r: string)
    requires i <= |s| && j <= |s|
    ensures i < j ==> r == s[i..j]
    ensures j <= i ==> r == []
  {
    if i < j then s[i..j] else []
  }

  /** `s.lstrip()` */
  function StripStart(s: string): (r: string)
    ensures |r| <= |s| && (r == [] || !IsSpace(r[0]))
    decreases |s|
  {
    if s != [] && IsSpace(s[0]) then StripStart(s[1..]) else s
  }

  /** `s.rstrip()` */
  function StripEnd(s: string): (r: string)
    ensures |r| <= |s| && (r == [] || !IsSpace(r[|r| - 1]))
    ensures r != [] ==> r[0] == s[0]
    ensures s != [] && !IsSpace(s[0]) ==> r != []
    decreases |s|
  {
    if s != [] && IsSpace(s[|s| - 1]) then StripEnd(s[..|s| - 1]) else s
  }

  /** `s.strip()` */
  function Strip(s: string): (r: string)
    ensures |r| <= |s|
    ensures r == [] || (!IsSpace(r[0]) && !IsSpace(r[|r| - 1]))
  {
    StripEnd(StripStart(s))
  }

  /** `s.lstrip(chars)` for a set of characters. */
  function StripCharsStart(s: string, chars: set<char>): (r: string)
    ensures |r| <= |s| && (r == [] || r[0] !in chars)
    decreases |s|
  {
    if s != [] && s[0] in chars then StripCharsStart(s[1..], chars) else s
  }

  /** `s.rstrip(chars)` for a set of characters. */
  function StripCharsEnd(s: string, chars: set<char>): (r: string)
    ensures |r| <= |s| && (r == [] || r[|r| - 1] !in chars)
    ensures r != [] ==> r[0] == s[0]
    decreases |s|
  {
    if s != [] && s[|s| - 1] in chars then StripCharsEnd(s[..|s| - 1], chars) else s
  }

  /** `s.strip(chars)` for a set of characters. */
  function StripChars(s: string, chars: set<char>): (r: string)
    ensures |r| <= |s|
    ensures r == [] || (r[0] !in chars && r[|r| - 1] !in chars)
  {
    StripCharsEnd(StripCharsStart(s, chars), chars)
  }

  /** A string Python calls blank: `not s.strip()`. */
  predicate IsBlank(s: string) {
    forall i | 0 <= i < |s| :: IsSpace(s[i])
  }

  lemma {:induction false} StripStartEmptyIffBlank(s: string)
    ensures StripStart(s) == [] <==> IsBlank(s)
    decreases |s|
  {
    if s != [] && IsSpace(s[0]) {
      StripStartEmptyIffBlank(s[1..]);
      assert IsBlank(s) <==> IsBlank(s[1..]) by {
        if IsBlank(s[1..]) {
          forall i | 0 <= i < |s| ensures IsSpace(s[i]) {
            if i > 0 { assert s[i] == s[1..][i - 1]; }
          }
        }
      }
    }
  }

  lemma StripEmptyIffBlank(s: string)
    ensures Strip(s) == [] <==> IsBlank(s)
  {
    StripStartEmptyIffBlank(s);
  }

  /** `s.replace(pat, rep)`: every non-overlapping occurrence, scanning left to right. */
  function Replace(s: string, pat: string, rep: string): string
    requires pat != []
    decreases |s|
  {
    if |s| < |pat| then s
    else if s[..|pat|] == pat then rep + Replace(s[|pat|..], pat, rep)
    else [s[0]] + Replace(s[1..], pat, rep)
  }

  /** Replacing one character by one character substitutes it position by position. */
  lemma {:induction false} ReplaceCharIsMap(s: string, c: char, d: char)
    ensures |Replace(s, [c], [d])| == |s|
    ensures forall i :: 0 <= i < |s| ==> Replace(s, [c], [d])[i] == if s[i] == c then d else s[i]
    decreases |s|
  {
    if |s| >= 1 {
      ReplaceCharIsMap(s[1..], c, d);
      var r := Replace(s, [c], [d]);
      assert r == [if s[0] == c then d else s[0]] + Replace(s[1..], [c], [d]);
    }
  }

  /** A character absent from the replacement is absent from the result when it is the
      pattern itself or was absent from the string to begin with. */
  lemma {:induction false} ReplaceAvoids(s: string, pat: string, rep: string, d: char)
    requires pat != [] && d !in rep && (pat == [d] || d !in s)
    ensures d !in Replace(s, pat, rep)
    decreases |s|
  {
    if |s| < |pat| {
    } else if s[..|pat|] == pat {
      ReplaceAvoids(s[|pat|..], pat, rep, d);
    } else {
      assert s[0] != d by {
        if pat == [d] { assert s[..1] == [s[0]]; }
      }
      ReplaceAvoids(s[1..], pat, rep, d);
    }
  }

  /** Replacing by the empty string never lengthens a string. */
  lemma {:induction false} ReplaceByEmptyShrinks(s: string, pat: string)
    requires pat != []
    ensures |Replace(s, pat, "")| <= |s|
    decreases |s|
  {
    if |s| < |pat| {
    } else if s[..|pat|] == pat {
      ReplaceByEmptyShrinks(s[|pat|..], pat);
    } else {
      ReplaceByEmptyShrinks(s[1..], pat);
    }
  }

  /** `s.split(sep)` for a one-character separator. */
  function Split(s: string, sep: char): (parts: seq<string>)
    ensures |parts| >= 1
  {
    if s == [] then [""]
    else
      var t := Split(s[1..], sep);
      if s[0] == sep then [""] + t else [[s[0]] + t[0]] + t[1..]
  }

  /** `sep.join(parts)` */
  function Join(parts: seq<string>, sep: string): string {
    if |parts| == 0 then ""
    else if |parts| == 1 then parts[0]
    else parts[0] + sep + Join(parts[1..], sep)
  }

  lemma JoinCons(head: string, parts: seq<string>, sep: string)
    requires parts != []
    ensures Join([head] + parts, sep) == head + sep + Join(parts, sep)
  {
    assert ([head] + parts)[1..] == parts;
  }

  /** Joining the pieces of a split with the separator gives back the string. */
  lemma {:induction false} JoinSplit(s: string, sep: char)
    ensures Join(Split(s, sep), [sep]) == s
  {
    if s != [] {
      var t := Split(s[1..], sep);
      JoinSplit(s[1..], sep);
      if s[0] == sep {
        JoinCons("", t, [sep]);
      } else if |t| == 1 {
      } else {
        assert t == [t[0]] + t[1..];
        JoinCons(t[0], t[1..], [sep]);
        JoinCons([s[0]] + t[0], t[1..], [sep]);
      }
      assert s == [s[0]] + s[1..];
    }
  }

  /** The text before the first `sep`, or all of `s` when it has none. */
  function Before(s: string, sep: char): (r: string)
    ensures |r| <= |s| && r == s[..|r|] && sep !in r
    ensures |r| < |s| ==> s[|r|] == sep
  {
    if s == [] || s[0] == sep then [] else [s[0]] + Before(s[1..], sep)
  }

  /** A string without `sep` is all "before" it. */
  lemma BeforeAbsent(s: string, sep: char)
    requires sep !in s
    ensures Before(s, sep) == s
  {
  }

  /** `s.split(sep)[0]` is the text before the first separator. */
  lemma {:induction false} SplitHead(s: string, sep: char)
    ensures Split(s, sep)[0] == Before(s, sep)
  {
    if s != [] {
      SplitHead(s[1..], sep);
    }
  }

  /** No piece holds the separator, and a string holding it splits into several pieces. */
  lemma {:induction false} SplitPartsLackSep(s: string, sep: char)
    ensures forall i :: 0 <= i < |Split(s, sep)| ==> sep !in Split(s, sep)[i]
    ensures sep in s ==> |Split(s, sep)| >= 2
  {
    if s != [] {
      SplitPartsLackSep(s[1..], sep);
      var t := Split(s[1..], sep);
      if s[0] != sep {
        assert sep !in [s[0]] + t[0];
        assert s == [s[0]] + s[1..];
      }
    }
  }

  function TitleFrom(s: string, previousCased: bool): (r: string)
    ensures |r| == |s|
  {
    if s == [] then []
    else [if previousCased then ToLowerChar(s[0]) else ToUpperChar(s[0])]
         + TitleFrom(s[1..], IsCased(s[0]))
  }

  /** `s.title()`: a cased character is upper-cased when the character before it is not
      cased, and lower-cased otherwise. */
  function Title(s: string): (r: string)
    ensures |r| == |s|
    ensures forall i :: 0 <= i < |s| && !IsCased(s[i]) ==> r[i] == s[i]
  {
    TitleChars(s, false);
    TitleFrom(s, false)
  }

  lemma {:induction false} TitleChars(s: string, previousCased: bool)
    ensures forall i :: 0 <= i < |s| && !IsCased(s[i]) ==> TitleFrom(s, previousCased)[i] == s[i]
    ensures forall i :: 0 < i < |s| && IsCased(s[i]) ==>
      TitleFrom(s, previousCased)[i] == (if IsCased(s[i - 1]) then ToLowerChar(s[i]) else ToUpperChar(s[i]))
    decreases |s|
  {
    if s != [] {
      TitleChars(s[1..], IsCased(s[0]));
      var r := TitleFrom(s, previousCased);
      assert r == [r[0]] + TitleFrom(s[1..], IsCased(s[0]));
      forall i | 0 < i < |s|
        ensures r[i] == TitleFrom(s[1..], IsCased(s[0]))[i - 1]
      {
      }
    }
  }

  /** `s.capitalize()`: the first character upper-cased, every other one lower-cased. */
  function Capitalize(s: string): (r: string)
    ensures |r| == |s|
    ensures s != [] ==> r[0] == ToUpperChar(s[0])
    ensures forall i :: 0 < i < |s| ==> r[i] == ToLowerChar(s[i])
  {
    if s == [] then [] else [ToUpperChar(s[0])] + Lower(s[1..])
  }

  /** Count of the occurrences of `c` in `s`. */
  function Count(s: string, c: char): (n: nat)
    ensures n <= |s|
  {
    if s == [] then 0 else Count(s[..|s| - 1], c) + (if s[|s| - 1] == c then 1 else 0)
  }

  /** The decimal digits of `n`, as `str(n)` prints them. */
  function NatToString(n: nat): (r: string)
    ensures |r| >= 1
    ensures forall i :: 0 <= i < |r| ==> '0' <= r[i] <= '9'
  {
    if n < 10 then [('0' as int + n) as char]
    else NatToString(n / 10) + [('0' as int + n % 10) as char]
  }

  /** Distinct numbers print differently. */
  lemma {:induction false} NatToStringInjective(n: nat, m: nat)
    requires NatToString(n) == NatToString(m)
    ensures n == m
    decreases n
  {
    var r := NatToString(n);
    if n < 10 && m < 10 {
      assert r[0] as int == '0' as int + n;
    } else if n < 10 || m < 10 {
      assert false;
    } else {
      var last := |r| - 1;
      assert r[last] as int == '0' as int + n % 10;
      assert NatToString(m)[last] as int == '0' as int + m % 10;
      assert NatToString(n / 10) == r[..last] == NatToString(m / 10);
      NatToStringInjective(n / 10, m / 10);
    }
  }

  /** `str(i)` for a Python integer. */
  function IntToString(i: int): (r: string)
    ensures |r| >= 1
  {
    if i < 0 then "-" + NatToString(-i) else NatToString(i)
  }

  predicate IsDigit(c: char) { '0' <= c <= '9' }

  /** Every character of `s` is a decimal digit. */
  predicate AllDigits(s: string) {
    s == [] || (IsDigit(s[|s| - 1]) && AllDigits(s[..|s| - 1]))
  }

  lemma {:induction false} AllDigitsAt(s: string)
    ensures AllDigits(s) <==> forall i :: 0 <= i < |s| ==> IsDigit(s[i])
  {
    if s != [] {
      AllDigitsAt(s[..|s| - 1]);
    }
  }

  /** The number a run of decimal digits spells, leading zeros allowed. */
  function DigitsValue(s: string): nat
    requires AllDigits(s)
  {
    if s == [] then 0 else DigitsValue(s[..|s| - 1]) * 10 + (s[|s| - 1] as int - '0' as int)
  }

  /** Reading back the digits `str(n)` prints gives `n`. */
  lemma {:induction false} DigitsValueOfNatToString(n: nat)
    ensures AllDigits(NatToString(n)) && DigitsValue(NatToString(n)) == n
    decreases n
  {
    var r := NatToString(n);
    if n >= 10 {
      assert r[..|r| - 1] == NatToString(n / 10);
      DigitsValueOfNatToString(n / 10);
    }
  }
}
