/**
 * A Python dict with string keys, as the scripts use it: lookups by key, and
 * iteration (json.dump, dict.keys()) in insertion order.
 */
module PyDict {

  datatype Dict<V> = Dict(keys: seq<string>, entries: map<string, V>)
  {
    /** Every key is listed once, and the listed keys are exactly the mapped ones. */
    ghost predicate Valid()
    {
      && (forall i, j :: 0 <= i < j < |keys| ==> keys[i] != keys[j])
      && (forall k :: k in entries <==> k in keys)
    }

    /**
     * `d[k] = v`: a new key goes to the end of the iteration order, an existing
     * key keeps its place and only its value changes.
     */
    function Put(k: string, v: V): (d: Dict<V>)
      ensures Valid() ==> d.Valid()
      ensures d.entries == entries[k := v]
      ensures k in keys ==> d.keys == keys
      ensures k !in keys ==> d.keys == keys + [k]
    {
      Dict(if k in keys then keys else keys + [k], entries[k := v])
    }
  }

  /** `{}` */
  function Empty<V>(): (d: Dict<V>)
    ensures d.Valid() && d.keys == [] && d.entries == map[]
  {
    Dict([], map[])
  }

  /** The keys of a list of assignments, in order. */
  function KeysOf<V>(pairs: seq<(string, V)>): seq<string>
  {
    seq(|pairs|, i requires 0 <= i < |pairs| => pairs[i].0)
  }

  /** The assignments `d[k] = v` for each pair, in order. */
  function PutAll<V>(d: Dict<V>, pairs: seq<(string, V)>): Dict<V>
    decreases |pairs|
  {
    if pairs == [] then d else PutAll(d.Put(pairs[0].0, pairs[0].1), pairs[1..])
  }

  /** Assigning one more pair after a run of assignments is one more `Put`. */
  lemma {:induction false} PutAllSnoc<V>(d: Dict<V>, pairs: seq<(string, V)>, k: string, v: V)
    ensures PutAll(d, pairs + [(k, v)]) == PutAll(d, pairs).Put(k, v)
    decreases |pairs|
  {
    if pairs == [] {
      assert [] + [(k, v)] == [(k, v)];
    } else {
      assert (pairs + [(k, v)])[1..] == pairs[1..] + [(k, v)];
      PutAllSnoc(d.Put(pairs[0].0, pairs[0].1), pairs[1..], k, v);
    }
  }

  /** Two runs of assignments are one run of their concatenation. */
  lemma {:induction false} PutAllConcat<V>(d: Dict<V>, a: seq<(string, V)>, b: seq<(string, V)>)
    ensures PutAll(PutAll(d, a), b) == PutAll(d, a + b)
    decreases |a|
  {
    if a == [] {
      assert a + b == b;
    } else {
      assert (a + b)[1..] == a[1..] + b;
      PutAllConcat(d.Put(a[0].0, a[0].1), a[1..], b);
    }
  }

  /**
   * Filling an empty dictionary with distinct keys gives a well-formed
   * dictionary that lists those keys in assignment order, each bound to its
   * assigned value.
   */
  lemma FromDistinctPairs<V>(pairs: seq<(string, V)>)
    requires forall i, j :: 0 <= i < j < |pairs| ==> pairs[i].0 != pairs[j].0
    ensures PutAll(Empty(), pairs).Valid()
    ensures PutAll(Empty(), pairs).keys == KeysOf(pairs)
    ensures forall i :: 0 <= i < |pairs| ==>
      pairs[i].0 in PutAll(Empty(), pairs).entries && PutAll(Empty(), pairs).entries[pairs[i].0] == pairs[i].1
  {
    var d0: Dict<V> := Empty();
    PutAllValid(d0, pairs);
    PutAllFreshKeys(d0, pairs);
    PutAllEntries(d0, pairs);
  }

  /**
   * Two runs of assignments into `{}` whose keys, in order, are the distinct
   * `keys`: the dictionary lists `keys` and binds each key to its value.
   */
  lemma FromTwoRuns<V>(a: seq<(string, V)>, b: seq<(string, V)>, keys: seq<string>)
    requires |keys| == |a| + |b|
    requires forall i, j :: 0 <= i < j < |keys| ==> keys[i] != keys[j]
    requires forall i :: 0 <= i < |a| ==> a[i].0 == keys[i]
    requires forall i :: 0 <= i < |b| ==> b[i].0 == keys[|a| + i]
    ensures var r := PutAll(PutAll(Empty(), a), b);
      && r.Valid() && r.keys == keys
      && (forall i :: 0 <= i < |a| ==> a[i].0 in r.entries && r.entries[a[i].0] == a[i].1)
      && (forall i :: 0 <= i < |b| ==> b[i].0 in r.entries && r.entries[b[i].0] == b[i].1)
  {
    var pairs := a + b;
    var r := PutAll(PutAll(Empty(), a), b);
    forall i | 0 <= i < |pairs| ensures pairs[i].0 == keys[i] {
      if i >= |a| {
        assert pairs[i] == b[i - |a|];
      }
    }
    KeysOfMatching(pairs, keys);
    PutAllConcat(Empty(), a, b);
    FromDistinctPairs(pairs);
    forall i | 0 <= i < |a| ensures a[i].0 in r.entries && r.entries[a[i].0] == a[i].1 {
      assert pairs[i] == a[i];
    }
    forall i | 0 <= i < |b| ensures b[i].0 in r.entries && r.entries[b[i].0] == b[i].1 {
      assert pairs[|a| + i] == b[i];
    }
  }

  /** Assignments whose keys are, in order, the distinct `keys`. */
  lemma KeysOfMatching<V>(pairs: seq<(string, V)>, keys: seq<string>)
    requires |pairs| == |keys|
    requires forall i :: 0 <= i < |pairs| ==> pairs[i].0 == keys[i]
    requires forall i, j :: 0 <= i < j < |keys| ==> keys[i] != keys[j]
    ensures KeysOf(pairs) == keys
    ensures forall i, j :: 0 <= i < j < |pairs| ==> pairs[i].0 != pairs[j].0
  {
  }

  /**
   * The assignments after the first still have distinct keys, none of them the
   * first key, and their keys are the rest of the keys.
   */
  lemma DistinctTail<V>(pairs: seq<(string, V)>)
    requires pairs != []
    requires forall i, j :: 0 <= i < j < |pairs| ==> pairs[i].0 != pairs[j].0
    ensures forall i, j :: 0 <= i < j < |pairs[1..]| ==> pairs[1..][i].0 != pairs[1..][j].0
    ensures pairs[0].0 !in KeysOf(pairs[1..])
    ensures KeysOf(pairs) == [pairs[0].0] + KeysOf(pairs[1..])
  {
    var rest := pairs[1..];
    forall i, j | 0 <= i < j < |rest| ensures rest[i].0 != rest[j].0 {
      assert rest[i] == pairs[i + 1] && rest[j] == pairs[j + 1];
    }
    forall j | 0 <= j < |rest| ensures KeysOf(rest)[j] != pairs[0].0 {
      assert rest[j] == pairs[j + 1];
    }
  }

  /** Assignments keep a dictionary well formed. */
  lemma {:induction false} PutAllValid<V>(d: Dict<V>, pairs: seq<(string, V)>)
    requires d.Valid()
    ensures PutAll(d, pairs).Valid()
    decreases |pairs|
  {
    if pairs != [] {
      PutAllValid(d.Put(pairs[0].0, pairs[0].1), pairs[1..]);
    }
  }

  /**
   * Assigning keys that are distinct and new appends them to the iteration
   * order, in the order of assignment.
   */
  lemma {:induction false} PutAllFreshKeys<V>(d: Dict<V>, pairs: seq<(string, V)>)
    requires forall i, j :: 0 <= i < j < |pairs| ==> pairs[i].0 != pairs[j].0
    requires forall i :: 0 <= i < |pairs| ==> pairs[i].0 !in d.keys
    ensures PutAll(d, pairs).keys == d.keys + KeysOf(pairs)
    decreases |pairs|
  {
    if pairs != [] {
      var d' := d.Put(pairs[0].0, pairs[0].1);
      var rest := pairs[1..];
      assert d'.keys == d.keys + [pairs[0].0];
      DistinctTail(pairs);
      forall i | 0 <= i < |rest| ensures rest[i].0 !in d'.keys {
        assert rest[i] == pairs[i + 1];
      }
      PutAllFreshKeys(d', rest);
      assert d.keys + KeysOf(pairs) == d'.keys + KeysOf(rest);
    }
  }

  /**
   * After assigning distinct keys, each of them maps to the value assigned to
   * it and every other key keeps its old value.
   */
  lemma {:induction false} PutAllEntries<V>(d: Dict<V>, pairs: seq<(string, V)>)
    requires forall i, j :: 0 <= i < j < |pairs| ==> pairs[i].0 != pairs[j].0
    ensures forall i :: 0 <= i < |pairs| ==>
      pairs[i].0 in PutAll(d, pairs).entries && PutAll(d, pairs).entries[pairs[i].0] == pairs[i].1
    ensures forall k :: k in d.entries && k !in KeysOf(pairs) ==>
      k in PutAll(d, pairs).entries && PutAll(d, pairs).entries[k] == d.entries[k]
    decreases |pairs|
  {
    if pairs != [] {
      var d' := d.Put(pairs[0].0, pairs[0].1);
      var rest := pairs[1..];
      DistinctTail(pairs);
      PutAllEntries(d', rest);
      var r := PutAll(d, pairs);
      assert r == PutAll(d', rest);
      forall i | 0 <= i < |pairs|
        ensures pairs[i].0 in r.entries && r.entries[pairs[i].0] == pairs[i].1
      {
        if i > 0 {
          assert pairs[i] == rest[i - 1];
        }
      }
      forall k | k in d.entries && k !in KeysOf(pairs)
        ensures k in r.entries && r.entries[k] == d.entries[k]
      {
        assert k != KeysOf(pairs)[0];
      }
    }
  }
}
