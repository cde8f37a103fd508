/** Python containers as the resolver uses them: optional values, insertion-ordered
    dictionaries with string keys, and the "first maximum wins" scan that every
    best-match search in the code base performs. */
module Collections {

  datatype Option<T> = None | Some(value: T)

  /** No key occurs twice: what a Python dict guarantees. */
  ghost predicate UniqueKeys<V>(d: seq<(string, V)>) {
    forall i, j :: 0 <= i < j < |d| ==> d[i].0 != d[j].0
  }

  /** A Python dict: its (key, value) pairs in iteration (insertion) order. */
  type Dict<V> = d: seq<(string, V)> | UniqueKeys(d) witness []

  /** `list(d.values())`, in iteration order. */
  function Values<V>(d: seq<(string, V)>): seq<V> {
    seq(|d|, i requires 0 <= i < |d| => d[i].1)
  }

  /** `d.get(key)`: the value stored under `key`, or None when the key is absent. */
  function Lookup<V>(d: seq<(string, V)>, key: string): (r: Option<V>)
    ensures r.None? <==> forall i :: 0 <= i < |d| ==> d[i].0 != key
  {
    if d == [] then None
    else if d[0].0 == key then Some(d[0].1)
    else Lookup(d[1..], key)
  }

  /** In a dict, the value found under a key is the one paired with it. */
  lemma {:induction false} LookupFound<V>(d: seq<(string, V)>, i: nat)
    requires UniqueKeys(d) && i < |d|
    ensures Lookup(d, d[i].0) == Some(d[i].1)
  {
    if i > 0 {
      assert d[0].0 != d[i].0;
      assert UniqueKeys(d[1..]) by {
        forall a, b | 0 <= a < b < |d| - 1 ensures d[1..][a].0 != d[1..][b].0 {
          assert d[1..][a] == d[a + 1] && d[1..][b] == d[b + 1];
        }
      }
      LookupFound(d[1..], i - 1);
    }
  }

  /** `d[key] = value`: an existing key keeps its position and takes the new value;
      a new key goes to the end. */
  function Put<V>(d: seq<(string, V)>, key: string, value: V): (r: seq<(string, V)>)
    ensures Lookup(r, key) == Some(value)
    ensures forall k :: k != key ==> Lookup(r, k) == Lookup(d, k)
  {
    if d == [] then [(key, value)]
    else if d[0].0 == key then [(key, value)] + d[1..]
    else [d[0]] + Put(d[1..], key, value)
  }

  /** `{v: k for k, v in d.items()}`: the reverse dictionary, built by assigning every
      pair in iteration order, so a later key overwrites an earlier one with the same value. */
  function Invert(d: seq<(string, string)>): seq<(string, string)> {
    if d == [] then []
    else Put(Invert(d[..|d| - 1]), d[|d| - 1].1, d[|d| - 1].0)
  }

  /** The reverse dictionary after one more pair: that pair's value now maps to its key. */
  lemma InvertSnoc(d: seq<(string, string)>, name: string)
    requires d != []
    ensures Lookup(Invert(d), name) ==
            if d[|d| - 1].1 == name then Some(d[|d| - 1].0) else Lookup(Invert(d[..|d| - 1]), name)
  {
  }

  /** Looking a value up in the reverse dictionary finds the LAST key carrying it,
      and fails exactly when no key carries it. */
  lemma {:induction false} InvertLastWins(d: seq<(string, string)>, name: string)
    ensures Lookup(Invert(d), name).None? <==> forall i :: 0 <= i < |d| ==> d[i].1 != name
    ensures Lookup(Invert(d), name).Some? ==>
              exists i :: 0 <= i < |d| && d[i] == (Lookup(Invert(d), name).value, name) &&
                          forall j :: i < j < |d| ==> d[j].1 != name
  {
    if d != [] {
      var p := d[..|d| - 1];
      var last := d[|d| - 1];
      InvertSnoc(d, name);
      InvertLastWins(p, name);
      var r := Lookup(Invert(p), name);
      if last.1 != name {
        assert forall i :: 0 <= i < |p| ==> p[i] == d[i];
        if r.Some? {
          var i :| 0 <= i < |p| && p[i] == (r.value, name) && forall j :: i < j < |p| ==> p[j].1 != name;
          assert d[i] == p[i];
        }
      }
    }
  }

  /** Index of the first maximum: a scan that replaces the best only on a strictly
      greater value. */
  function ArgMaxFirst(xs: seq<int>): (k: nat)
    requires xs != []
    ensures k < |xs|
    ensures forall j :: 0 <= j < |xs| ==> xs[j] <= xs[k]
    ensures forall j :: 0 <= j < k ==> xs[j] < xs[k]
    decreases |xs|
  {
    if |xs| == 1 then 0
    else
      var k := ArgMaxFirst(xs[..|xs| - 1]);
      if xs[|xs| - 1] > xs[k] then |xs| - 1 else k
  }

  /** Extending the scanned sequence by one value moves the first maximum to that value
      exactly when it beats the maximum so far. */
  lemma ArgMaxFirstSnoc(xs: seq<int>, x: int)
    requires xs != []
    ensures ArgMaxFirst(xs + [x]) == if x > xs[ArgMaxFirst(xs)] then |xs| else ArgMaxFirst(xs)
  {
    assert (xs + [x])[..|xs|] == xs;
  }

  /** The largest value, or 0 for an empty sequence: a running best that starts at 0. */
  function MaxOr0(xs: seq<int>): int
  {
    if xs == [] then 0 else xs[ArgMaxFirst(xs)]
  }
}
