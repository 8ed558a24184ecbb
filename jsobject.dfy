/**
 * JavaScript objects with string keys, as insertion-ordered lists of
 * properties. Assignment `o[k] = v` keeps the position of an existing key and
 * appends a new one; object spread `{...o, ...e}` assigns the properties of
 * `e` one after another.
 */
module JsObject {
  import opened Wrappers

  type Object<V> = seq<(string, V)>

  /** The property names, in enumeration order. */
  function Keys<V>(o: Object<V>): (ks: seq<string>)
    ensures |ks| == |o| && forall i :: 0 <= i < |o| ==> ks[i] == o[i].0
  {
    seq(|o|, i requires 0 <= i < |o| => o[i].0)
  }

  predicate DistinctKeys<V>(o: Object<V>) {
    forall i, j :: 0 <= i < j < |o| ==> o[i].0 != o[j].0
  }

  /**
   * `o[k]` for an own property: the value of the property named `k`, `None`
   * for `undefined`. Names inherited from `Object.prototype` are not seen.
   */
  function Get<V>(o: Object<V>, k: string): (r: Option<V>)
    ensures r.None? <==> k !in Keys(o)
    decreases |o|
  {
    if |o| == 0 then None
    else if o[0].0 == k then Some(o[0].1)
    else Get(o[1..], k)
  }

  /** The value of the last property named `k`: the one a sequence of assignments leaves behind. */
  function GetLast<V>(o: Object<V>, k: string): (r: Option<V>)
    ensures r.None? <==> k !in Keys(o)
    decreases |o|
  {
    if |o| == 0 then None
    else if o[|o| - 1].0 == k then Some(o[|o| - 1].1)
    else
      assert Keys(o[..|o| - 1]) == Keys(o)[..|o| - 1];
      GetLast(o[..|o| - 1], k)
  }

  /** In an object with distinct names, every listed property reads as its value. */
  lemma {:induction false} GetDistinctAt<V>(o: Object<V>, i: int)
    requires DistinctKeys(o) && 0 <= i < |o|
    ensures Get(o, o[i].0) == Some(o[i].1)
    decreases |o|
  {
    if i > 0 {
      assert o[0].0 != o[i].0;
      GetDistinctAt(o[1..], i - 1);
    }
  }

  /** Reading a property of the concatenation of two property lists. */
  lemma {:induction false} GetAppend<V>(a: Object<V>, b: Object<V>, k: string)
    ensures Get(a + b, k) == if k in Keys(a) then Get(a, k) else Get(b, k)
    decreases |a|
  {
    if |a| > 0 {
      assert (a + b)[0] == a[0] && (a + b)[1..] == a[1..] + b;
      assert Keys(a) == [a[0].0] + Keys(a[1..]);
      if a[0].0 == k {
        assert Keys(a)[0] == k;
        assert Get(a + b, k) == Some(a[0].1);
      } else {
        GetAppend(a[1..], b, k);
        assert Get(a + b, k) == Get(a[1..] + b, k);
        assert k in Keys(a) <==> k in Keys(a[1..]);
      }
    } else {
      assert a + b == b;
    }
  }

  /** `o[k] = v`. */
  function Set<V>(o: Object<V>, k: string, v: V): Object<V>
    decreases |o|
  {
    if |o| == 0 then [(k, v)]
    else if o[0].0 == k then [(k, v)] + o[1..]
    else [o[0]] + Set(o[1..], k, v)
  }

  /** Assignment keeps the position of an existing name and appends a new one. */
  lemma {:induction false} SetKeys<V>(o: Object<V>, k: string, v: V)
    ensures Keys(Set(o, k, v)) == if k in Keys(o) then Keys(o) else Keys(o) + [k]
    decreases |o|
  {
    if |o| > 0 {
      KeysConcat([o[0]], o[1..]);
      assert o == [o[0]] + o[1..];
      KeyInCons(o, k);
      if o[0].0 == k {
        KeysConcat([(k, v)], o[1..]);
      } else {
        SetKeys(o[1..], k, v);
        KeysConcat([o[0]], Set(o[1..], k, v));
      }
    }
  }

  lemma KeysConcat<V>(a: Object<V>, b: Object<V>)
    ensures Keys(a + b) == Keys(a) + Keys(b)
  {
  }

  /** Assigning a property that is not there yet appends it. */
  lemma {:induction false} SetAbsent<V>(o: Object<V>, k: string, v: V)
    requires k !in Keys(o)
    ensures Set(o, k, v) == o + [(k, v)]
    decreases |o|
  {
    if |o| > 0 {
      assert Keys(o) == [o[0].0] + Keys(o[1..]);
      SetAbsent(o[1..], k, v);
      assert o == [o[0]] + o[1..];
    }
  }

  /** `{...o, ...e}`. */
  function Spread<V>(o: Object<V>, e: Object<V>): Object<V>
    decreases |e|
  {
    if |e| == 0 then o else Spread(Set(o, e[0].0, e[0].1), e[1..])
  }

  /** After `o[k] = v`, `o[k]` is `v` and every other property reads as before. */
  lemma {:induction false} GetSet<V>(o: Object<V>, k: string, v: V, k': string)
    ensures Get(Set(o, k, v), k') == if k' == k then Some(v) else Get(o, k')
    decreases |o|
  {
    if |o| > 0 && o[0].0 != k {
      GetSet(o[1..], k, v, k');
    }
  }

  /** Assignment keeps the property names distinct. */
  lemma SetDistinct<V>(o: Object<V>, k: string, v: V)
    requires DistinctKeys(o)
    ensures DistinctKeys(Set(o, k, v))
  {
    var r := Set(o, k, v);
    var ks := Keys(r);
    SetKeys(o, k, v);
    forall i, j | 0 <= i < j < |r| ensures r[i].0 != r[j].0 {
      assert ks[i] == r[i].0 && ks[j] == r[j].0;
      if k !in Keys(o) && j == |o| {
        assert ks[i] == Keys(o)[i];
      } else {
        assert ks[i] == Keys(o)[i] && ks[j] == Keys(o)[j];
      }
    }
  }

  lemma GetLastAppend<V>(e: Object<V>, p: (string, V), k: string)
    ensures GetLast(e + [p], k) == if p.0 == k then Some(p.1) else GetLast(e, k)
  {
    assert (e + [p])[..|e|] == e;
  }

  lemma GetLastCons<V>(p: (string, V), e: Object<V>, k: string)
    ensures GetLast([p] + e, k) == if k in Keys(e) then GetLast(e, k) else if p.0 == k then Some(p.1) else None
    decreases |e|
  {
    if |e| > 0 {
      var last := e[|e| - 1];
      assert [p] + e == ([p] + e[..|e| - 1]) + [last];
      assert e == e[..|e| - 1] + [last];
      GetLastAppend([p] + e[..|e| - 1], last, k);
      GetLastAppend(e[..|e| - 1], last, k);
      assert Keys(e) == Keys(e[..|e| - 1]) + [last.0];
      GetLastCons(p, e[..|e| - 1], k);
    }
  }

  lemma KeyInCons<V>(o: Object<V>, k: string)
    requires |o| > 0
    ensures k in Keys(o) <==> k == o[0].0 || k in Keys(o[1..])
  {
    if k in Keys(o[1..]) {
      var i :| 0 <= i < |o[1..]| && Keys(o[1..])[i] == k;
      assert Keys(o)[i + 1] == k;
    }
    if k in Keys(o) && k != o[0].0 {
      var i :| 0 <= i < |o| && Keys(o)[i] == k;
      assert Keys(o[1..])[i - 1] == k;
    }
    if k == o[0].0 {
      assert Keys(o)[0] == k;
    }
  }

  /**
   * The meaning of spread: a property named in `e` takes the value of its last
   * occurrence in `e`; every other property keeps its value in `o`.
   */
  lemma {:induction false} GetSpread<V>(o: Object<V>, e: Object<V>, k: string)
    ensures Get(Spread(o, e), k) == if k in Keys(e) then GetLast(e, k) else Get(o, k)
    decreases |e|
  {
    if |e| > 0 {
      var p, rest := e[0], e[1..];
      var o' := Set(o, p.0, p.1);
      assert Spread(o, e) == Spread(o', rest);
      GetSpread(o', rest, k);
      assert e == [p] + rest;
      GetLastCons(p, rest, k);
      KeyInCons(e, k);
      if k !in Keys(rest) {
        GetSet(o, p.0, p.1, k);
      }
    }
  }

  /** Spread keeps the property names distinct and never drops a property name. */
  lemma {:induction false} SpreadKeys<V>(o: Object<V>, e: Object<V>)
    requires DistinctKeys(o)
    ensures DistinctKeys(Spread(o, e))
    ensures forall k :: k in Keys(Spread(o, e)) <==> k in Keys(o) || k in Keys(e)
    decreases |e|
  {
    if |e| > 0 {
      var o' := Set(o, e[0].0, e[0].1);
      SetDistinct(o, e[0].0, e[0].1);
      SetKeys(o, e[0].0, e[0].1);
      SpreadKeys(o', e[1..]);
      assert Keys(e) == [e[0].0] + Keys(e[1..]);
    }
  }

  /** For an object with distinct names the first and the last occurrence agree. */
  lemma {:induction false} GetLastDistinct<V>(o: Object<V>, k: string)
    requires DistinctKeys(o)
    ensures GetLast(o, k) == Get(o, k)
    decreases |o|
  {
    if |o| > 0 {
      GetLastCons(o[0], o[1..], k);
      assert o == [o[0]] + o[1..];
      GetLastDistinct(o[1..], k);
      if k in Keys(o[1..]) {
        var i :| 0 <= i < |o[1..]| && Keys(o[1..])[i] == k;
        assert o[i + 1].0 == k;
      }
    }
  }
}
