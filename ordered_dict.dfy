/**
 * Python's `dict`, which iterates in insertion order, modelled as the order
 * of its keys beside the mapping itself.  Assigning an existing key keeps its
 * position; a new key goes last; deleting a key leaves the others in order.
 */
module OrderedDict {

  datatype Dict<K, V> = Dict(order: seq<K>, entries: map<K, V>)

  /** No key occurs twice in `s`. */
  predicate NoDuplicates<K(==)>(s: seq<K>) {
    forall i, j :: 0 <= i < j < |s| ==> s[i] != s[j]
  }

  /** The iteration order lists each key of the mapping exactly once. */
  predicate Valid<K(==), V>(d: Dict<K, V>) {
    && NoDuplicates(d.order)
    && (forall k | k in d.entries :: k in d.order)
    && (forall i | 0 <= i < |d.order| :: d.order[i] in d.entries)
  }

  /** `{}` */
  function Empty<K, V>(): (d: Dict<K, V>)
    ensures Valid(d) && d.entries == map[]
  {
    Dict([], map[])
  }

  /** `d[k] = v`: an existing key keeps its position, a new key goes last. */
  function Put<K(==), V>(d: Dict<K, V>, k: K, v: V): Dict<K, V> {
    if k in d.entries then Dict(d.order, d.entries[k := v])
    else Dict(d.order + [k], d.entries[k := v])
  }

  /** `s` with the occurrences of `k` taken out, the rest in order. */
  function Without<K(==)>(s: seq<K>, k: K): (r: seq<K>)
    ensures forall x | x in r :: x in s && x != k
    ensures forall x | x in s && x != k :: x in r
    ensures NoDuplicates(s) ==> NoDuplicates(r)
    ensures k !in s ==> r == s
    ensures NoDuplicates(s) && k in s ==> |r| == |s| - 1
  {
    if s == [] then []
    else if s[0] == k then Without(s[1..], k)
    else
      var rest := Without(s[1..], k);
      var r := [s[0]] + rest;
      assert NoDuplicates(s) ==> NoDuplicates(r) by {
        if NoDuplicates(s) {
          forall i, j | 0 <= i < j < |r| ensures r[i] != r[j] {
            assert r[j] == rest[j - 1] && r[j] in rest;
            if i > 0 { assert r[i] == rest[i - 1]; }
          }
        }
      }
      r
  }

  /** Taking `k` out works piecewise, so the keys that remain keep their relative order. */
  lemma {:induction false} WithoutConcat<K>(s: seq<K>, t: seq<K>, k: K)
    ensures Without(s + t, k) == Without(s, k) + Without(t, k)
    decreases |s|
  {
    if s == [] {
      assert s + t == t;
    } else {
      assert (s + t)[0] == s[0] && (s + t)[1..] == s[1..] + t;
      WithoutConcat(s[1..], t, k);
    }
  }

  /** Taking `k` out of a single key keeps it exactly when it is not `k`. */
  lemma WithoutSingle<K>(x: K, k: K)
    ensures Without([x], k) == if x == k then [] else [x]
  {
    assert [x][1..] == [];
  }

  /** `del d[k]` when `k` is present; `d` is unchanged otherwise. */
  function Remove<K(==), V>(d: Dict<K, V>, k: K): Dict<K, V> {
    if k in d.entries then Dict(Without(d.order, k), d.entries - {k}) else d
  }

  /** The mapping a list of pairs denotes; of two pairs with one key the later wins. */
  function PairsToMap<K(==), V>(pairs: seq<(K, V)>): (m: map<K, V>)
    decreases |pairs|
  {
    if pairs == [] then map[]
    else
      var last := pairs[|pairs| - 1];
      PairsToMap(pairs[..|pairs| - 1])[last.0 := last.1]
  }

  /** `for k, v in data: d[k] = v`, visiting `data` from first to last. */
  function PutAll<K(==), V>(d: Dict<K, V>, data: seq<(K, V)>): Dict<K, V>
    decreases |data|
  {
    if data == [] then d
    else
      var last := data[|data| - 1];
      Put(PutAll(d, data[..|data| - 1]), last.0, last.1)
  }

  /**
   * Upsert: after `d[k] = v` the dict maps `k` to `v` and every other key as
   * before; an existing key keeps its position and a new key is appended.
   */
  lemma PutUpserts<K, V>(d: Dict<K, V>, k: K, v: V)
    requires Valid(d)
    ensures Valid(Put(d, k, v))
    ensures Put(d, k, v).entries == d.entries[k := v]
    ensures k in d.entries ==> Put(d, k, v).order == d.order
    ensures k !in d.entries ==> Put(d, k, v).order == d.order + [k]
  {
  }

  /**
   * `del d[k]` removes exactly key `k`, keeps the other keys in their order,
   * and is a no-op when `k` is absent.
   */
  lemma RemoveDeletesOnly<K, V>(d: Dict<K, V>, k: K)
    requires Valid(d)
    ensures Valid(Remove(d, k))
    ensures Remove(d, k).entries == d.entries - {k}
    ensures Remove(d, k).order == Without(d.order, k)
    ensures k !in d.entries ==> Remove(d, k) == d
  {
    assert k !in d.entries ==> d.entries - {k} == d.entries;
    var r := Without(d.order, k);
    assert forall i | 0 <= i < |r| :: r[i] in r;
  }

  /** Overriding with an updated map is updating the override. */
  lemma MergeUpdate<K, V>(a: map<K, V>, b: map<K, V>, k: K, v: V)
    ensures a + b[k := v] == (a + b)[k := v]
  {
  }

  /** A prefix of a prefix is a prefix. */
  lemma PrefixOfPrefix<K>(s: seq<K>, t: seq<K>, p: seq<K>)
    requires |p| <= |s| <= |t| && s == t[..|s|] && p == s[..|p|]
    ensures p == t[..|p|]
  {
  }

  /**
   * Merging `data` into a dict adds or overwrites the keys of `data` (taking
   * the last value of a repeated key), keeps every other entry, and never
   * moves or drops an existing key.
   */
  lemma {:induction false} PutAllMerges<K, V>(d: Dict<K, V>, data: seq<(K, V)>)
    requires Valid(d)
    ensures Valid(PutAll(d, data))
    ensures PutAll(d, data).entries == d.entries + PairsToMap(data)
    ensures |PutAll(d, data).order| >= |d.order|
    ensures PutAll(d, data).order[..|d.order|] == d.order
    decreases |data|
  {
    if data != [] {
      var init, last := data[..|data| - 1], data[|data| - 1];
      PutAllMerges(d, init);
      var t := PutAll(d, init);
      PutUpserts(t, last.0, last.1);
      assert PairsToMap(data) == PairsToMap(init)[last.0 := last.1];
      MergeUpdate(d.entries, PairsToMap(init), last.0, last.1);
      PrefixOfPrefix(t.order, Put(t, last.0, last.1).order, d.order);
    }
  }
}
