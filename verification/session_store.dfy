/** `st.session_state`: the one mutable key-value store every page and helper reads and
    updates in place. Keys are unordered; values are JSON-shaped. A pandas DataFrame kept
    in the store is the value it was built from: its rows (a list of row dictionaries) or
    its columns (a dictionary of column lists); `pd.DataFrame()` is the empty list. */
module SessionStore {
  import opened Values

  class Session {
    var state: map<string, Value>

    constructor(initial: map<string, Value>)
      ensures state == initial
    {
      state := initial;
    }
  }

  /** `st.session_state.get(k, default)` */
  function GetOr(m: map<string, Value>, k: string, default: Value): (r: Value)
    ensures k in m ==> r == m[k]
    ensures k !in m ==> r == default
  {
    if k in m then m[k] else default
  }

  /** `m` with every key of `keys` deleted. */
  function Without(m: map<string, Value>, keys: set<string>): (r: map<string, Value>)
    ensures r.Keys == m.Keys - keys
    ensures forall k :: k in r ==> r[k] == m[k]
  {
    map k | k in m && k !in keys :: m[k]
  }

  /** The keys listed in `keys`. */
  function Members(keys: seq<string>): set<string> {
    set k | k in keys
  }

  lemma MembersAppend(keys: seq<string>, k: string)
    ensures Members(keys + [k]) == Members(keys) + {k}
  {
    assert forall x :: x in keys + [k] <==> x in keys || x == k;
  }

  /** Deleting the keys of `keys` that are present, one at a time, as
      `for key in keys: if key in st.session_state: del st.session_state[key]` does. */
  method DeleteKeys(s: Session, keys: seq<string>)
    modifies s
    ensures s.state == Without(old(s.state), Members(keys))
  {
    for i := 0 to |keys|
      invariant s.state == Without(old(s.state), Members(keys[..i]))
    {
      if keys[i] in s.state {
        s.state := map k | k in s.state && k != keys[i] :: s.state[k];
      }
      assert keys[..i + 1] == keys[..i] + [keys[i]];
      MembersAppend(keys[..i], keys[i]);
    }
    assert keys[..|keys|] == keys;
  }

  /** Deleting two sets of keys one after the other deletes their union. */
  lemma WithoutTwice(m: map<string, Value>, a: set<string>, b: set<string>)
    ensures Without(Without(m, a), b) == Without(m, a + b)
  {
  }
}
