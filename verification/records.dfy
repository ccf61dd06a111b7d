/** `Record<string, string>` objects as the v0 utilities use them: an
    insertion-ordered list of entries, where assigning an existing key
    changes its value in place and assigning a new key appends it, which is
    the order `Object.entries` reports for non-numeric keys. */
module Records {
  import opened Util

  type Entry<V> = (string, V)
  type Rec<V> = seq<Entry<V>>

  function Keys<V>(r: Rec<V>): (ks: seq<string>)
    ensures |ks| == |r|
    ensures forall i :: 0 <= i < |r| ==> ks[i] == r[i].0
  {
    seq(|r|, i requires 0 <= i < |r| => r[i].0)
  }

  /** `r[k]`, `undefined` for an absent key. */
  function Get<V>(r: Rec<V>, k: string): (v: Option<V>)
    ensures v.None? <==> k !in Keys(r)
    decreases |r|
  {
    if r == [] then None
    else if r[0].0 == k then Some(r[0].1)
    else Get(r[1..], k)
  }

  /** `r[k] = v`. */
  function Set<V>(r: Rec<V>, k: string, v: V): (r': Rec<V>)
    ensures k in Keys(r) ==> Keys(r') == Keys(r)
    ensures k !in Keys(r) ==> Keys(r') == Keys(r) + [k]
    decreases |r|
  {
    if r == [] then [(k, v)]
    else if r[0].0 == k then [(k, v)] + r[1..]
    else [r[0]] + Set(r[1..], k, v)
  }

  lemma {:induction false} GetSet<V>(r: Rec<V>, k: string, v: V, k': string)
    ensures Get(Set(r, k, v), k') == if k' == k then Some(v) else Get(r, k')
    decreases |r|
  {
    if r != [] && r[0].0 != k {
      GetSet(r[1..], k, v, k');
    }
  }

  /** The record built by assigning the entries of `ds` one after another. */
  function AssignAll<V>(r: Rec<V>, ds: seq<Entry<V>>): Rec<V>
    decreases |ds|
  {
    if ds == [] then r else AssignAll(Set(r, ds[0].0, ds[0].1), ds[1..])
  }

  /** Entry `j` of `ds` is the last one naming `k`. */
  predicate LastEntryFor<V>(ds: seq<Entry<V>>, j: int, k: string)
  {
    0 <= j < |ds| && ds[j].0 == k && forall i :: j < i < |ds| ==> ds[i].0 != k
  }

  /** After assigning a list of entries, a key holds the value of its last
      entry, and keeps its old value when no entry names it. */
  lemma {:induction false} AssignAllLastWins<V>(r: Rec<V>, ds: seq<Entry<V>>, k: string)
    ensures (forall i :: 0 <= i < |ds| ==> ds[i].0 != k) ==> Get(AssignAll(r, ds), k) == Get(r, k)
    ensures forall j :: LastEntryFor(ds, j, k) ==> Get(AssignAll(r, ds), k) == Some(ds[j].1)
    decreases |ds|
  {
    if ds != [] {
      var r1 := Set(r, ds[0].0, ds[0].1);
      var tail := ds[1..];
      AssignAllLastWins(r1, tail, k);
      GetSet(r, ds[0].0, ds[0].1, k);
      assert forall i :: 0 <= i < |tail| ==> tail[i] == ds[i + 1];
      forall j | LastEntryFor(ds, j, k)
        ensures Get(AssignAll(r, ds), k) == Some(ds[j].1)
      {
        if j > 0 {
          assert LastEntryFor(tail, j - 1, k);
        } else {
          assert forall i :: 0 <= i < |tail| ==> tail[i].0 != k;
        }
      }
    }
  }

  /** Assigning keeps the keys already there, and every key of `ds`. */
  lemma {:induction false} AssignAllKeys<V>(r: Rec<V>, ds: seq<Entry<V>>, k: string)
    ensures k in Keys(AssignAll(r, ds)) <==>
      k in Keys(r) || exists i :: 0 <= i < |ds| && ds[i].0 == k
    decreases |ds|
  {
    if ds != [] {
      var r1 := Set(r, ds[0].0, ds[0].1);
      AssignAllKeys(r1, ds[1..], k);
      if exists i :: 0 <= i < |ds| - 1 && ds[1..][i].0 == k {
        var i :| 0 <= i < |ds| - 1 && ds[1..][i].0 == k;
        assert ds[i + 1].0 == k;
      }
      if exists i :: 0 <= i < |ds| && ds[i].0 == k {
        var i :| 0 <= i < |ds| && ds[i].0 == k;
        if i > 0 {
          assert ds[1..][i - 1].0 == k;
        }
      }
    }
  }
}
