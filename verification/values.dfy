/** The JSON-shaped Python values the application passes around: `None`, booleans,
    integers, strings, lists and insertion-ordered dictionaries with string keys. */
module Values {
  import opened Text

  datatype Option<+T> = None | Some(value: T)

  datatype Value =
    | VNone
    | VBool(b: bool)
    | VInt(i: int)
    | VStr(s: string)
    | VList(items: seq<Value>)
    | VDict(entries: seq<(string, Value)>)

  /** Python truthiness: `bool(v)`. */
  predicate Truthy(v: Value) {
    match v
    case VNone => false
    case VBool(b) => b
    case VInt(i) => i != 0
    case VStr(s) => s != ""
    case VList(items) => items != []
    case VDict(entries) => entries != []
  }

  function Keys(entries: seq<(string, Value)>): (ks: seq<string>)
    ensures |ks| == |entries|
    ensures forall i :: 0 <= i < |entries| ==> ks[i] == entries[i].0
  {
    seq(|entries|, i requires 0 <= i < |entries| => entries[i].0)
  }

  /** No key occurs twice, as in every Python dictionary. */
  predicate UniqueKeys(entries: seq<(string, Value)>) {
    forall i, j :: 0 <= i < j < |entries| ==> entries[i].0 != entries[j].0
  }

  /** The position of key `k`, or -1 when the dictionary has no such key. */
  function KeyIndex(entries: seq<(string, Value)>, k: string): (r: int)
    ensures -1 <= r < |entries|
    ensures r >= 0 ==> entries[r].0 == k
    ensures forall j :: 0 <= j < |entries| && (r == -1 || j < r) ==> entries[j].0 != k
  {
    if entries == [] then -1
    else if entries[0].0 == k then 0
    else
      var t := KeyIndex(entries[1..], k);
      if t == -1 then -1 else t + 1
  }

  predicate HasKey(entries: seq<(string, Value)>, k: string) {
    KeyIndex(entries, k) >= 0
  }

  /** `d.get(k)` on a dictionary: `None` stands for a missing key. */
  function Find(entries: seq<(string, Value)>, k: string): (r: Option<Value>)
    ensures r.None? <==> forall j :: 0 <= j < |entries| ==> entries[j].0 != k
    ensures r.Some? ==> exists j :: 0 <= j < |entries| && entries[j] == (k, r.value)
  {
    var i := KeyIndex(entries, k);
    if i == -1 then None else Some(entries[i].1)
  }

  /** `v.get(k)` when `v` is a dictionary, `None` otherwise. */
  function Lookup(v: Value, k: string): Option<Value> {
    if v.VDict? then Find(v.entries, k) else None
  }

  /** `v.get(k, default)` */
  function Get(v: Value, k: string, default: Value): (r: Value)
    ensures Lookup(v, k).Some? ==> r == Lookup(v, k).value
    ensures Lookup(v, k).None? ==> r == default
  {
    match Lookup(v, k)
    case Some(x) => x
    case None => default
  }

  /** `d[k] = x`: an existing key keeps its position, a new key goes last. */
  function SetKey(entries: seq<(string, Value)>, k: string, x: Value): (r: seq<(string, Value)>)
    ensures Find(r, k) == Some(x)
    ensures HasKey(entries, k) ==> |r| == |entries|
    ensures !HasKey(entries, k) ==> r == entries + [(k, x)]
  {
    var i := KeyIndex(entries, k);
    if i == -1 then
      var r := entries + [(k, x)];
      assert KeyIndex(r, k) == |entries| by { KeyIndexAppend(entries, k, x); }
      r
    else
      var r := entries[i := (k, x)];
      KeyIndexAt(r, k, i);
      r
  }

  /** The first position holding key `k` is its index. */
  lemma KeyIndexAt(entries: seq<(string, Value)>, k: string, i: int)
    requires 0 <= i < |entries| && entries[i].0 == k
    requires forall j :: 0 <= j < i ==> entries[j].0 != k
    ensures KeyIndex(entries, k) == i
  {
    var r := KeyIndex(entries, k);
    assert r != -1 by { assert entries[i].0 == k; }
  }

  lemma {:induction false} KeyIndexAppend(entries: seq<(string, Value)>, k: string, x: Value)
    requires KeyIndex(entries, k) == -1
    ensures KeyIndex(entries + [(k, x)], k) == |entries|
    decreases |entries|
  {
    if entries != [] {
      assert (entries + [(k, x)])[1..] == entries[1..] + [(k, x)];
      KeyIndexAppend(entries[1..], k, x);
    }
  }

  lemma KeyIndexAbsent(entries: seq<(string, Value)>, k: string)
    requires forall j :: 0 <= j < |entries| ==> entries[j].0 != k
    ensures KeyIndex(entries, k) == -1
  {
  }

  /** Assigning a key and then assigning back the value it held restores the dictionary. */
  lemma SetKeyRestores(entries: seq<(string, Value)>, k: string, x: Value, v: Value)
    requires Find(entries, k) == Some(v)
    ensures SetKey(SetKey(entries, k, x), k, v) == entries
  {
    var i := KeyIndex(entries, k);
    var once := entries[i := (k, x)];
    KeyIndexAt(once, k, i);
    assert once[i := (k, v)] == entries;
  }

  /** Assigning a key twice is assigning it the second value. */
  lemma SetKeyTwice(entries: seq<(string, Value)>, k: string, x: Value, y: Value)
    ensures SetKey(SetKey(entries, k, x), k, y) == SetKey(entries, k, y)
  {
    var i := KeyIndex(entries, k);
    if i == -1 {
      KeyIndexAppend(entries, k, x);
    } else {
      KeyIndexAt(entries[i := (k, x)], k, i);
    }
  }

  /** Assigning one key leaves every other key's value and the key uniqueness alone. */
  lemma SetKeyOthers(entries: seq<(string, Value)>, k: string, x: Value, other: string)
    requires other != k
    ensures Find(SetKey(entries, k, x), other) == Find(entries, other)
  {
    var r := SetKey(entries, k, x);
    var i := KeyIndex(entries, k);
    var j := KeyIndex(entries, other);
    if i == -1 {
      if j == -1 {
        assert forall t :: 0 <= t < |r| ==> r[t].0 != other;
      } else {
        KeyIndexAt(r, other, j);
      }
    } else {
      assert forall t :: 0 <= t < |r| ==> r[t].0 == entries[t].0;
      if j != -1 {
        KeyIndexAt(r, other, j);
      }
    }
  }

  lemma SetKeyUnique(entries: seq<(string, Value)>, k: string, x: Value)
    requires UniqueKeys(entries)
    ensures UniqueKeys(SetKey(entries, k, x))
  {
    var r := SetKey(entries, k, x);
    if HasKey(entries, k) {
      assert forall t :: 0 <= t < |r| ==> r[t].0 == entries[t].0;
    }
  }

  /** Assigning a key adds no entry other than the assigned one. */
  lemma SetKeyMembers(entries: seq<(string, Value)>, k: string, x: Value)
    ensures forall e :: e in SetKey(entries, k, x) ==> e in entries || e == (k, x)
  {
    var r := SetKey(entries, k, x);
    var i := KeyIndex(entries, k);
    if i != -1 {
      forall e | e in r ensures e in entries || e == (k, x) {
        var t :| 0 <= t < |r| && r[t] == e;
        if t != i { assert r[t] == entries[t]; }
      }
    }
  }

  /** A dictionary has a key exactly when the key is among its keys. */
  lemma HasKeyIffIn(entries: seq<(string, Value)>, k: string)
    ensures HasKey(entries, k) <==> k in Keys(entries)
  {
    var ks := Keys(entries);
    if k in ks {
      var t :| 0 <= t < |ks| && ks[t] == k;
      assert entries[t].0 == k;
    }
  }

  /** The string of a string value, and "" for anything else. */
  function AsStr(v: Value): string {
    if v.VStr? then v.s else ""
  }

  /** The items of a list value, and [] for anything else. */
  function AsList(v: Value): seq<Value> {
    if v.VList? then v.items else []
  }

  /** `isinstance(v, str) and v.strip()`: a string with a non-blank character. */
  predicate NonBlankStr(v: Value) {
    v.VStr? && !IsBlank(v.s)
  }

  /** `len(x)`: strings, lists and dictionaries have one; anything else raises. */
  function Length(v: Value): Option<nat> {
    match v
    case VStr(s) => Some(|s|)
    case VList(items) => Some(|items|)
    case VDict(entries) => Some(|entries|)
    case _ => None
  }

  /** `sum(len(q_list) for q_list in d.values())` over `entries[..n]`; `None` when some
      value has no length. */
  function LengthSum(entries: seq<(string, Value)>, n: nat): (r: Option<nat>)
    requires n <= |entries|
    ensures r.None? <==> exists i :: 0 <= i < n && Length(entries[i].1).None?
  {
    if n == 0 then Some(0)
    else match (LengthSum(entries, n - 1), Length(entries[n - 1].1))
      case (Some(a), Some(b)) => Some(a + b)
      case _ => None
  }

  /** `int(s)` on a string: optional surrounding whitespace, an optional sign and one or
      more decimal digits; `None` where `int` raises. */
  function ParseInt(s: string): (r: Option<int>)
    ensures r.Some? ==> var t := Strip(s); t != [] && (IsDigit(t[0]) || t[0] == '-' || t[0] == '+')
  {
    var t := Strip(s);
    var signed := t != [] && (t[0] == '-' || t[0] == '+');
    var digits := if signed then t[1..] else t;
    if digits == [] || !AllDigits(digits) then None
    else
      AllDigitsAt(digits);
      var n: int := DigitsValue(digits);
      Some(if signed && t[0] == '-' then -n else n)
  }

  function Pow10(k: nat): (r: nat)
    ensures r >= 1
  {
    if k == 0 then 1 else 10 * Pow10(k - 1)
  }

  /** The value of digits with at most one decimal point and at least one digit. */
  function UnsignedDecimal(t: string): (r: Option<real>)
    ensures r.Some? ==> r.value >= 0.0
  {
    var whole := Before(t, '.');
    var fraction := if |whole| < |t| then t[|whole| + 1..] else "";
    if |whole| + |fraction| == 0 || !AllDigits(whole) || !AllDigits(fraction) then None
    else Some(DigitsValue(whole) as real + DigitsValue(fraction) as real / Pow10(|fraction|) as real)
  }

  /** `float(s)` on a string in positional decimal notation: optional surrounding whitespace,
      an optional sign, digits with at most one decimal point; `None` where `float` raises. */
  function ParseDecimal(s: string): (r: Option<real>)
    ensures r.Some? ==> Strip(s) != []
  {
    var t := Strip(s);
    var signed := t != [] && (t[0] == '-' || t[0] == '+');
    match UnsignedDecimal(if signed then t[1..] else t)
    case None => None
    case Some(x) => Some(if signed && t[0] == '-' then -x else x)
  }

  /** A string with no surrounding whitespace strips to itself. */
  lemma StripUnpadded(s: string)
    requires s != [] && !IsSpace(s[0]) && !IsSpace(s[|s| - 1])
    ensures Strip(s) == s
  {
    assert StripStart(s) == s;
  }

  /** A run of digits, with or without a minus sign, reads as its value. */
  lemma ParseIntOfDigits(digits: string, negative: bool)
    requires digits != [] && AllDigits(digits)
    ensures var n: int := DigitsValue(digits);
      ParseInt(if negative then "-" + digits else digits) == Some(if negative then -n else n)
  {
    var s := if negative then "-" + digits else digits;
    AllDigitsAt(digits);
    assert IsDigit(s[|s| - 1]);
    assert IsDigit(s[0]) || s[0] == '-';
    StripUnpadded(s);
    if negative {
      assert s[1..] == digits;
    }
  }

  /** `int(str(i)) == i`. */
  lemma ParseIntOfPrinted(i: int)
    ensures ParseInt(IntToString(i)) == Some(i)
  {
    var n: nat := if i < 0 then -i else i;
    DigitsValueOfNatToString(n);
    ParseIntOfDigits(NatToString(n), i < 0);
  }

  /** Whatever `int` reads from a string, `float` reads as the same number. */
  lemma {:induction false} ParseDecimalExtendsInt(s: string)
    ensures ParseInt(s).Some? ==> ParseDecimal(s) == Some(ParseInt(s).value as real)
  {
    var t := Strip(s);
    var signed := t != [] && (t[0] == '-' || t[0] == '+');
    var digits := if signed then t[1..] else t;
    if digits != [] && AllDigits(digits) {
      AllDigitsAt(digits);
      BeforeAbsent(digits, '.');
      assert UnsignedDecimal(digits) == Some(DigitsValue(digits) as real);
    }
  }
}
