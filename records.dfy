/** A JavaScript object with string keys, modelled as its properties in
    insertion order (the order `Object.keys` and `Object.entries` report for
    keys that are not array indices). */
module Records {
  import opened Wrappers
  import opened Seqs

  type Record<V> = seq<(string, V)>

  /** `Object.keys(rec)`. */
  function Keys<V>(rec: Record<V>): seq<string> {
    seq(|rec|, i requires 0 <= i < |rec| => rec[i].0)
  }

  /** Every key occurs once. */
  predicate WellFormed<V>(rec: Record<V>) {
    Distinct(Keys(rec))
  }

  /** `rec[key]`, or `None` for `undefined`. */
  function Get<V>(rec: Record<V>, key: string): (r: Option<V>)
    ensures r.None? <==> key !in Keys(rec)
  {
    assert rec != [] ==> Keys(rec) == [rec[0].0] + Keys(rec[1..]);
    if rec == [] then None
    else if rec[0].0 == key then Some(rec[0].1)
    else Get(rec[1..], key)
  }

  /** `rec[key] = v`: an existing property keeps its place, a new one is
      added at the end. */
  function Assign<V>(rec: Record<V>, key: string, v: V): (r: Record<V>)
    ensures Get(r, key) == Some(v)
    ensures forall k :: k != key ==> Get(r, k) == Get(rec, k)
    ensures key in Keys(rec) ==> Keys(r) == Keys(rec)
    ensures key !in Keys(rec) ==> Keys(r) == Keys(rec) + [key]
    ensures WellFormed(rec) ==> WellFormed(r)
  {
    assert rec != [] ==> Keys(rec) == [rec[0].0] + Keys(rec[1..]);
    if rec == [] then [(key, v)]
    else if rec[0].0 == key then
      assert Keys([(key, v)] + rec[1..]) == [key] + Keys(rec[1..]);
      [(key, v)] + rec[1..]
    else
      var rest := Assign(rec[1..], key, v);
      assert Keys([rec[0]] + rest) == [rec[0].0] + Keys(rest);
      [rec[0]] + rest
  }

  /** In a well-formed record each property reads back its own value. */
  lemma {:induction false} GetAt<V>(rec: Record<V>, i: int)
    requires WellFormed(rec) && 0 <= i < |rec|
    ensures Get(rec, rec[i].0) == Some(rec[i].1)
  {
    if i > 0 {
      assert Keys(rec)[0] != Keys(rec)[i];
      assert Keys(rec[1..]) == Keys(rec)[1..];
      GetAt(rec[1..], i - 1);
    }
  }
}
