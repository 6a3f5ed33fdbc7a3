/**
 * The dictionaries from category name to amount that the analytics code passes around.
 * A Python dict iterates in insertion order, so it is modelled as a sequence of
 * (name, amount) entries; a real dict never holds a name twice (`Distinct`).
 */
module Categories {

  type Entry = (string, real)
  type CategoryMap = seq<Entry>

  /** The names of the entries, in iteration order. */
  function Names(m: CategoryMap): (r: seq<string>)
    ensures |r| == |m|
    ensures forall i :: 0 <= i < |m| ==> r[i] == m[i].0
  {
    seq(|m|, i requires 0 <= i < |m| => m[i].0)
  }

  /** The set of keys, `d.keys()`. */
  function Keys(m: CategoryMap): set<string>
  {
    set i | 0 <= i < |m| :: m[i].0
  }

  /** No name occurs twice: what every Python dict guarantees. */
  predicate Distinct(m: CategoryMap)
  {
    forall i, j :: 0 <= i < j < |m| ==> m[i].0 != m[j].0
  }

  /** `d.get(k, default)`. */
  function Get(m: CategoryMap, k: string, default: real): real
  {
    if m == [] then default
    else if m[|m| - 1].0 == k then m[|m| - 1].1
    else Get(m[..|m| - 1], k, default)
  }

  /** Every entry with name `k` replaced by `(k, v)`; the order is kept. */
  function Replace(m: CategoryMap, k: string, v: real): (r: CategoryMap)
    ensures |r| == |m|
    ensures forall i :: 0 <= i < |m| ==> r[i] == if m[i].0 == k then (k, v) else m[i]
  {
    seq(|m|, i requires 0 <= i < |m| => if m[i].0 == k then (k, v) else m[i])
  }

  /** `d[k] = v`: an existing key keeps its place, a new key goes to the end. */
  function Put(m: CategoryMap, k: string, v: real): CategoryMap
  {
    if k in Keys(m) then Replace(m, k, v) else m + [(k, v)]
  }

  /** `sum(d.values())`, added up in iteration order. */
  function Sum(m: CategoryMap): real
  {
    if m == [] then 0.0 else Sum(m[..|m| - 1]) + m[|m| - 1].1
  }

  /** Dropping the last entry drops its name from the keys, and keeps a dict a dict. */
  lemma KeysInit(m: CategoryMap)
    requires m != []
    ensures Keys(m) == Keys(m[..|m| - 1]) + {m[|m| - 1].0}
    ensures Distinct(m) ==> Distinct(m[..|m| - 1]) && m[|m| - 1].0 !in Keys(m[..|m| - 1])
  {
    var init := m[..|m| - 1];
    assert forall i :: 0 <= i < |init| ==> init[i] == m[i];
  }

  /** `d.get(k, default)` is the default for a missing key, and otherwise the value of an entry of `k`. */
  lemma {:induction false} GetFound(m: CategoryMap, k: string, d: real)
    ensures k !in Keys(m) ==> Get(m, k, d) == d
    ensures k in Keys(m) ==> exists i :: 0 <= i < |m| && m[i] == (k, Get(m, k, d))
  {
    if m != [] {
      KeysInit(m);
      var init := m[..|m| - 1];
      GetFound(init, k, d);
      if m[|m| - 1].0 != k && k in Keys(init) {
        var i :| 0 <= i < |init| && init[i] == (k, Get(init, k, d));
        assert m[i] == init[i];
      }
    }
  }

  /** In a dict, `d.get(k)` is the value of the one entry of `k`. */
  lemma {:induction false} GetDistinct(m: CategoryMap, i: nat, d: real)
    requires Distinct(m) && i < |m|
    ensures Get(m, m[i].0, d) == m[i].1
  {
    if i < |m| - 1 {
      var init := m[..|m| - 1];
      assert init[i] == m[i];
      KeysInit(m);
      GetDistinct(init, i, d);
    }
  }

  /** Replacing values keeps the names, and so the keys. */
  lemma ReplaceNames(m: CategoryMap, k: string, v: real)
    ensures Names(Replace(m, k, v)) == Names(m)
    ensures Keys(Replace(m, k, v)) == Keys(m)
  {
    var r := Replace(m, k, v);
    assert Names(r) == Names(m);
    assert forall i :: 0 <= i < |m| ==> r[i].0 == m[i].0;
  }

  /** `d[k] = v` adds `k` to the keys, keeps a dict a dict, and appends exactly when `k` is new. */
  lemma PutKeys(m: CategoryMap, k: string, v: real)
    ensures Keys(Put(m, k, v)) == Keys(m) + {k}
    ensures k in Keys(m) ==> Names(Put(m, k, v)) == Names(m)
    ensures k !in Keys(m) ==> Put(m, k, v) == m + [(k, v)]
    ensures Distinct(m) ==> Distinct(Put(m, k, v))
  {
    if k in Keys(m) {
      ReplaceNames(m, k, v);
    } else {
      var r := m + [(k, v)];
      assert r[..|r| - 1] == m;
      KeysInit(r);
    }
  }

  /** After `d[k] = v`, `d.get(k)` is `v` and every other key reads as before. */
  lemma GetPut(m: CategoryMap, k: string, v: real, k': string, d: real)
    ensures Get(Put(m, k, v), k', d) == if k' == k then v else Get(m, k', d)
  {
    if k in Keys(m) {
      GetReplace(m, k, v, k', d);
    } else {
      var r := m + [(k, v)];
      assert r[..|r| - 1] == m;
    }
  }

  lemma {:induction false} GetReplace(m: CategoryMap, k: string, v: real, k': string, d: real)
    requires k in Keys(m)
    ensures Get(Replace(m, k, v), k', d) == if k' == k then v else Get(m, k', d)
  {
    var r := Replace(m, k, v);
    var init, last := m[..|m| - 1], m[|m| - 1];
    assert r[..|r| - 1] == Replace(init, k, v);
    KeysInit(m);
    if last.0 == k {
      if k' != k {
        if k in Keys(init) {
          GetReplace(init, k, v, k', d);
        } else {
          assert Replace(init, k, v) == init;
        }
      }
    } else {
      GetReplace(init, k, v, k', d);
    }
  }

  /** Overwriting the one entry of `k` changes the sum of the values by the difference. */
  lemma {:induction false} SumReplace(m: CategoryMap, k: string, v: real)
    requires Distinct(m) && k in Keys(m)
    ensures Sum(Replace(m, k, v)) == Sum(m) - Get(m, k, 0.0) + v
  {
    var r := Replace(m, k, v);
    var init, last := m[..|m| - 1], m[|m| - 1];
    assert r[..|r| - 1] == Replace(init, k, v);
    KeysInit(m);
    if last.0 == k {
      assert Replace(init, k, v) == init;
    } else {
      SumReplace(init, k, v);
    }
  }

  /** Adding `a` to the value of `k` (0 when absent) adds `a` to the sum of the values. */
  lemma SumPutAdd(m: CategoryMap, k: string, a: real)
    requires Distinct(m)
    ensures Sum(Put(m, k, Get(m, k, 0.0) + a)) == Sum(m) + a
  {
    var r := Put(m, k, Get(m, k, 0.0) + a);
    if k in Keys(m) {
      SumReplace(m, k, Get(m, k, 0.0) + a);
    } else {
      GetFound(m, k, 0.0);
      assert r[..|r| - 1] == m;
    }
  }
}
