/** System.Collections.Generic.Dictionary as an association list. The list
    order is the enumeration order, which for a dictionary that never loses
    an entry is the order of insertion. */
module Dict {
  import opened Common

  type Dict<K, V> = seq<(K, V)>

  /** The keys in enumeration order. */
  function Keys<K, V>(d: Dict<K, V>): (r: seq<K>)
    ensures |r| == |d| && forall i :: 0 <= i < |d| ==> r[i] == d[i].0
  {
    if d == [] then [] else [d[0].0] + Keys(d[1..])
  }

  /** The values in enumeration order; a value stored under several keys occurs once per key. */
  function Values<K, V>(d: Dict<K, V>): (r: seq<V>)
    ensures |r| == |d| && forall i :: 0 <= i < |d| ==> r[i] == d[i].1
  {
    if d == [] then [] else [d[0].1] + Values(d[1..])
  }

  /** What every Dictionary satisfies: no key twice. */
  predicate Valid<K(==), V>(d: Dict<K, V>) {
    NoDup(Keys(d))
  }

  predicate HasKey<K(==), V>(d: Dict<K, V>, k: K) {
    k in Keys(d)
  }

  /** TryGetValue: the value stored under k, if any. */
  function Get<K(==), V>(d: Dict<K, V>, k: K): (r: Option<V>)
    ensures r.Some? <==> HasKey(d, k)
    ensures r.Some? ==> (k, r.value) in d
  {
    if d == [] then None
    else if d[0].0 == k then Some(d[0].1)
    else Get(d[1..], k)
  }

  /** Dictionary.Add: appends a new entry, or fails (ArgumentException) when the key exists. */
  function Add<K(==), V>(d: Dict<K, V>, k: K, v: V): (r: Option<Dict<K, V>>)
    ensures r.None? <==> HasKey(d, k)
    ensures r.Some? ==> r.value == d + [(k, v)]
    ensures r.Some? && Valid(d) ==> Valid(r.value)
  {
    if HasKey(d, k) then None
    else
      assert Keys(d + [(k, v)]) == Keys(d) + [k];
      Some(d + [(k, v)])
  }

  /** The keys of a dictionary with one more entry. */
  lemma KeysAppend<K, V>(before: Dict<K, V>, after: Dict<K, V>)
    requires |after| == |before| + 1 && after[..|before|] == before
    ensures Keys(after) == Keys(before) + [after[|before|].0]
  {
    assert after == before + [after[|before|]];
  }

  /** The keys of two dictionaries one after the other. */
  lemma KeysConcat<K, V>(d: Dict<K, V>, e: Dict<K, V>)
    ensures Keys(d + e) == Keys(d) + Keys(e)
  {
    var l, r := Keys(d + e), Keys(d) + Keys(e);
    forall i | 0 <= i < |l| ensures l[i] == r[i] {
      if i >= |d| {
        assert (d + e)[i] == e[i - |d|];
      }
    }
  }

  /** The indexer setter: overwrites in place when the key exists, appends otherwise. */
  function Put<K(==), V>(d: Dict<K, V>, k: K, v: V): (r: Dict<K, V>)
    ensures HasKey(d, k) ==> Keys(r) == Keys(d)
    ensures !HasKey(d, k) ==> r == d + [(k, v)]
    ensures forall i :: 0 <= i < |d| && d[i].0 != k ==> r[i] == d[i]
  {
    if d == [] then [(k, v)]
    else if d[0].0 == k then [(k, v)] + d[1..]
    else
      var t := Put(d[1..], k, v);
      assert HasKey(d, k) ==> HasKey(d[1..], k);
      [d[0]] + t
  }

  lemma {:induction false} GetAfterPut<K, V>(d: Dict<K, V>, k: K, v: V)
    ensures Get(Put(d, k, v), k) == Some(v)
  {
    if d != [] && d[0].0 != k {
      GetAfterPut(d[1..], k, v);
    }
  }

  lemma {:induction false} GetUnique<K, V>(d: Dict<K, V>, k: K, v: V)
    requires Valid(d) && (k, v) in d
    ensures Get(d, k) == Some(v)
  {
    if d[0].0 != k {
      assert (k, v) in d[1..];
      assert Keys(d[1..]) == Keys(d)[1..];
      GetUnique(d[1..], k, v);
    }
  }

  /** The indexer on a key that only entry i has replaces entry i's value and nothing else. */
  lemma {:induction false} PutAt<K, V>(d: Dict<K, V>, i: nat, v: V)
    requires i < |d| && forall j :: 0 <= j < |d| && j != i ==> d[j].0 != d[i].0
    ensures var r := Put(d, d[i].0, v);
      |r| == |d| && r[i] == (d[i].0, v) && forall j :: 0 <= j < |d| && j != i ==> r[j] == d[j]
  {
    if i > 0 {
      assert d[0].0 != d[i].0;
      PutAt(d[1..], i - 1, v);
    }
  }

  /** The same, as one equation: the indexer writes entry i and leaves the order alone. */
  lemma PutInPlace<K, V>(d: Dict<K, V>, i: nat, v: V)
    requires i < |d| && forall j :: 0 <= j < |d| && j != i ==> d[j].0 != d[i].0
    ensures Put(d, d[i].0, v) == d[i := (d[i].0, v)]
  {
    PutAt(d, i, v);
    var r := Put(d, d[i].0, v);
    forall j | 0 <= j < |d|
      ensures r[j] == d[i := (d[i].0, v)][j]
    {
    }
  }

  /** foreach (k, v) in ps: d.Add(k, v): the entries appended one by one, or an
      exception at the first key already present. */
  function AddAll<K(==), V>(d: Dict<K, V>, ps: Dict<K, V>): (r: Option<Dict<K, V>>)
    decreases |ps|
  {
    if ps == [] then Some(d)
    else
      match AddAll(d, ps[..|ps| - 1])
      case None => None
      case Some(e) => Add(e, ps[|ps| - 1].0, ps[|ps| - 1].1)
  }

  /** Adding a list of entries to a dictionary succeeds exactly when no key occurs twice
      in the two together, and then appends them in their order. */
  lemma {:induction false} AddAllSpec<K, V>(d: Dict<K, V>, ps: Dict<K, V>)
    requires Valid(d)
    ensures AddAll(d, ps).Some? <==> Valid(d + ps)
    ensures AddAll(d, ps).Some? ==> AddAll(d, ps).value == d + ps
    decreases |ps|
  {
    if ps != [] {
      var init := ps[..|ps| - 1];
      var last := ps[|ps| - 1];
      AddAllSpec(d, init);
      assert d + ps == (d + init) + [last];
      KeysAppend(d + init, d + ps);
      NoDupSnoc(Keys(d + init), last.0);
      assert AddAll(d, ps) == if AddAll(d, init).None? then None else Add(d + init, last.0, last.1);
    }
  }

  /** Enumerable.ToDictionary on a list of pairs: an exception when a key repeats, and
      otherwise the pairs themselves, in their order. */
  function ToDictionary<K(==), V>(ps: Dict<K, V>): (r: Option<Dict<K, V>>)
    ensures r.Some? <==> Valid(ps)
    ensures r.Some? ==> r.value == ps
  {
    AddAllSpec([], ps);
    assert [] + ps == ps;
    AddAll([], ps)
  }
}
