/** A dict: insertion-ordered, a key that is set again keeps its place. */
module OrderedMap {
  import opened Ble
  import opened KeyOrder

  type Dict<V> = seq<(string, V)>

  function Keys<V>(d: Dict<V>): seq<string> {
    seq(|d|, i requires 0 <= i < |d| => d[i].0)
  }

  function Get<V>(d: Dict<V>, k: string): Option<V> {
    if d == [] then None else if d[0].0 == k then Some(d[0].1) else Get(d[1..], k)
  }

  function Put<V>(d: Dict<V>, k: string, v: V): Dict<V> {
    if d == [] then [(k, v)]
    else if d[0].0 == k then [(k, v)] + d[1..]
    else [d[0]] + Put(d[1..], k, v)
  }

  function PutAll<V>(d: Dict<V>, items: Dict<V>): Dict<V> {
    if items == [] then d
    else Put(PutAll(d, items[..|items| - 1]), items[|items| - 1].0, items[|items| - 1].1)
  }

  lemma {:induction false} PutKeys<V>(d: Dict<V>, k: string, v: V)
    ensures Keys(Put(d, k, v)) == if k in Keys(d) then Keys(d) else Keys(d) + [k]
  {
    if d != [] {
      assert Keys(d) == [d[0].0] + Keys(d[1..]);
      if d[0].0 != k {
        PutKeys(d[1..], k, v);
        assert Keys(Put(d, k, v)) == [d[0].0] + Keys(Put(d[1..], k, v));
      } else {
        assert Keys(Put(d, k, v)) == Keys(d);
      }
    }
  }

  lemma {:induction false} PutGet<V>(d: Dict<V>, k: string, v: V, j: string)
    ensures Get(Put(d, k, v), j) == if j == k then Some(v) else Get(d, j)
  {
    if d != [] && d[0].0 != k { PutGet(d[1..], k, v, j); }
  }

  lemma {:induction false} GetInKeys<V>(d: Dict<V>, k: string)
    ensures Get(d, k).Some? <==> k in Keys(d)
  {
    if d != [] {
      assert Keys(d) == [d[0].0] + Keys(d[1..]);
      GetInKeys(d[1..], k);
    }
  }

  lemma {:induction false} NoKeys<V>()
    ensures Keys<V>([]) == []
  {}

  lemma {:induction false} KeysPush<V>(init: Dict<V>, last: (string, V))
    ensures Keys(init + [last]) == Keys(init) + [last.0]
  {}

  lemma {:induction false} KeysOfLast(a: seq<string>, b: seq<string>, k: string)
    ensures var r := FirstOf(a + b); FirstOf(a + (b + [k])) == if k in r then r else r + [k]
  {
    var ks := a + (b + [k]);
    assert ks[..|ks| - 1] == a + b;
  }

  /** A dict filled entry by entry has each key once, at the place it was first set. */
  lemma {:induction false} PutAllKeys<V>(d: Dict<V>, items: Dict<V>)
    requires Distinct(Keys(d))
    ensures Keys(PutAll(d, items)) == FirstOf(Keys(d) + Keys(items))
  {
    hide FirstOf, Put, Keys;
    if items == [] {
      FirstOfDistinct(Keys(d));
      NoKeys<V>();
      assert Keys(d) + [] == Keys(d);
    } else {
      var init, last := items[..|items| - 1], items[|items| - 1];
      PutAllKeys(d, init);
      PutKeys(PutAll(d, init), last.0, last.1);
      KeysPush(init, last);
      KeysOfLast(Keys(d), Keys(init), last.0);
      assert init + [last] == items;
    }
  }

  /** The last entry that sets a key decides its value. */
  lemma {:induction false} PutAllUntouched<V>(d: Dict<V>, items: Dict<V>, k: string)
    requires k !in Keys(items)
    ensures Get(PutAll(d, items), k) == Get(d, k)
  {
    if items != [] {
      var init, last := items[..|items| - 1], items[|items| - 1];
      assert Keys(items) == Keys(init) + [last.0];
      PutAllUntouched(d, init, k);
      PutGet(PutAll(d, init), last.0, last.1, k);
    }
  }

  lemma {:induction false} PutAllJoin<V>(d: Dict<V>, a: Dict<V>, b: Dict<V>)
    ensures PutAll(d, a + b) == PutAll(PutAll(d, a), b)
  {
    if b == [] {
      assert a + b == a;
    } else {
      assert (a + b)[..|a + b| - 1] == a + b[..|b| - 1];
      PutAllJoin(d, a, b[..|b| - 1]);
    }
  }
}
