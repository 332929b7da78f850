/** Python's `dict` with string keys, which remembers the order its keys were first inserted. */
module Dicts {
  import opened Wrappers

  /** `keys` is the iteration order of the dict, `m` its contents. */
  datatype Dict<V> = Dict(keys: seq<string>, m: map<string, V>) {

    /** Every key is listed once, and exactly the keys of `m` are listed. */
    ghost predicate Valid() {
      && (forall i, j :: 0 <= i < j < |keys| ==> keys[i] != keys[j])
      && (forall k :: k in m <==> k in keys)
    }

    /** `d[k] = v`: a new key is iterated last, an existing key keeps its place and gets the new value. */
    function Put(k: string, v: V): (d: Dict<V>)
      requires Valid()
      ensures d.Valid()
      ensures d.m == m[k := v]
      ensures k in m ==> d.keys == keys
      ensures k !in m ==> d.keys == keys + [k]
    {
      if k in m then Dict(keys, m[k := v]) else Dict(keys + [k], m[k := v])
    }

    /** `d.get(k)`. */
    function Get(k: string): Option<V> {
      if k in m then Some(m[k]) else None
    }

    /** Python truthiness: `not d`. */
    predicate IsEmpty() {
      m == map[]
    }
  }

  /** `{}`. */
  function Empty<V>(): (d: Dict<V>)
    ensures d.Valid() && d.IsEmpty()
  {
    Dict([], map[])
  }

  /** `d[k] = v` for every present pair, in order, starting from `{}`. */
  function PutAll<V>(xs: seq<Option<(string, V)>>): (d: Dict<V>)
    ensures d.Valid()
    decreases |xs|
  {
    if xs == [] then Empty()
    else
      var n := |xs| - 1;
      var d := PutAll(xs[..n]);
      match xs[n]
      case Some(p) => d.Put(p.0, p.1)
      case None => d
  }

  /** The last pair, when present, is assigned on top of the rest. */
  lemma PutAllLast<V>(xs: seq<Option<(string, V)>>)
    requires xs != []
    ensures var n := |xs| - 1;
      PutAll(xs).m == if xs[n].Some? then PutAll(xs[..n]).m[xs[n].value.0 := xs[n].value.1] else PutAll(xs[..n]).m
  {
  }

  /** A key is in the result exactly when some present pair has it. */
  lemma {:induction false} PutAllKeys<V>(xs: seq<Option<(string, V)>>, k: string)
    ensures k in PutAll(xs).m <==> exists i :: 0 <= i < |xs| && xs[i].Some? && xs[i].value.0 == k
    decreases |xs|
  {
    if xs != [] {
      var n := |xs| - 1;
      PutAllLast(xs);
      PutAllKeys(xs[..n], k);
      if k in PutAll(xs[..n]).m {
        var i :| 0 <= i < n && xs[..n][i].Some? && xs[..n][i].value.0 == k;
        assert xs[i] == xs[..n][i];
      } else if !(xs[n].Some? && xs[n].value.0 == k) {
        forall i | 0 <= i < |xs| && xs[i].Some?
          ensures xs[i].value.0 != k
        {
          if i < n {
            assert xs[..n][i] == xs[i];
          }
        }
      }
    }
  }

  /** The value under a key is that of the last pair with that key. */
  lemma {:induction false} PutAllLastWins<V>(xs: seq<Option<(string, V)>>, i: int)
    requires 0 <= i < |xs| && xs[i].Some?
    requires forall j :: i < j < |xs| && xs[j].Some? ==> xs[j].value.0 != xs[i].value.0
    ensures xs[i].value.0 in PutAll(xs).m
    ensures PutAll(xs).m[xs[i].value.0] == xs[i].value.1
    decreases |xs|
  {
    var n := |xs| - 1;
    PutAllLast(xs);
    if i < n {
      forall j | i < j < n && xs[..n][j].Some?
        ensures xs[..n][j].value.0 != xs[..n][i].value.0
      {
        assert xs[..n][j] == xs[j];
      }
      PutAllLastWins(xs[..n], i);
    }
  }

  /** Every stored pair is one of the present input pairs. */
  lemma {:induction false} PutAllValues<V>(xs: seq<Option<(string, V)>>, k: string)
    requires k in PutAll(xs).m
    ensures exists i :: 0 <= i < |xs| && xs[i] == Some((k, PutAll(xs).m[k]))
    decreases |xs|
  {
    var n := |xs| - 1;
    PutAllLast(xs);
    if xs[n].Some? && xs[n].value.0 == k {
      assert xs[n] == Some((k, PutAll(xs).m[k]));
    } else {
      PutAllValues(xs[..n], k);
      var i :| 0 <= i < n && xs[..n][i] == Some((k, PutAll(xs[..n]).m[k]));
      assert xs[i] == xs[..n][i];
    }
  }
}
