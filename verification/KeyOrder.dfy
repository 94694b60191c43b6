/** Lists of keys: which come first, which are picked out, and what stands before what. */
module KeyOrder {
  predicate Distinct<K(==)>(ks: seq<K>) {
    forall i, j :: 0 <= i < j < |ks| ==> ks[i] != ks[j]
  }

  /** The first occurrence of each key, in order. */
  function FirstOf<K(==)>(ks: seq<K>): seq<K> {
    if ks == [] then [] else
      var r := FirstOf(ks[..|ks| - 1]);
      if ks[|ks| - 1] in r then r else r + [ks[|ks| - 1]]
  }

  /** The keys of `ks` that are not among `gone`. */
  function Without<K(==)>(ks: seq<K>, gone: seq<K>): seq<K> {
    if ks == [] then [] else
      Without(ks[..|ks| - 1], gone) + (if ks[|ks| - 1] in gone then [] else [ks[|ks| - 1]])
  }

  /** The keys of `order` that are among `ks`, in the order of `order`. */
  function Select<K(==)>(order: seq<K>, ks: seq<K>): seq<K> {
    if order == [] then [] else
      Select(order[..|order| - 1], ks) + (if order[|order| - 1] in ks then [order[|order| - 1]] else [])
  }

  /** `x` stands somewhere in front of `y`. */
  ghost predicate Before<K>(ks: seq<K>, x: K, y: K) {
    exists i, j :: 0 <= i < j < |ks| && ks[i] == x && ks[j] == y
  }

  // ── Distinct lists ───────────────────────────────────────────────────────

  lemma {:induction false} SplitDistinct<K>(a: seq<K>, b: seq<K>)
    requires Distinct(a + b)
    ensures Distinct(a) && Distinct(b) && (forall k <- a :: k !in b) && (forall k <- b :: k !in a)
  {
    var ks := a + b;
    forall i, j | 0 <= i < j < |a| ensures a[i] != a[j] { assert ks[i] != ks[j]; }
    forall i, j | 0 <= i < j < |b| ensures b[i] != b[j] { assert ks[|a| + i] != ks[|a| + j]; }
    forall i, j | 0 <= i < |a| && 0 <= j < |b| ensures a[i] != b[j] { assert ks[i] != ks[|a| + j]; }
  }

  lemma {:induction false} JoinDistinct<K>(a: seq<K>, b: seq<K>)
    requires Distinct(a) && Distinct(b) && forall k <- a :: k !in b
    ensures Distinct(a + b)
  {
    var ks := a + b;
    forall i, j | 0 <= i < j < |ks| ensures ks[i] != ks[j] {
      if i < |a| <= j { assert a[i] in a && b[j - |a|] in b; }
    }
  }

  lemma {:induction false} Apart<K>(a: seq<K>, b: seq<K>, i: nat, j: nat)
    requires Distinct(a + b) && i < |a| && j < |b|
    ensures a[i] != b[j]
  {
    assert (a + b)[i] != (a + b)[|a| + j];
  }

  // ── First occurrences ────────────────────────────────────────────────────

  lemma {:induction false} FirstOfFacts<K>(ks: seq<K>)
    ensures Distinct(FirstOf(ks))
    ensures forall k :: k in FirstOf(ks) <==> k in ks
  {
    if ks != [] {
      FirstOfFacts(ks[..|ks| - 1]);
      assert ks == ks[..|ks| - 1] + [ks[|ks| - 1]];
    }
  }

  lemma {:induction false} FirstOfDistinct<K>(ks: seq<K>)
    requires Distinct(ks)
    ensures FirstOf(ks) == ks
  {
    if ks != [] {
      FirstOfDistinct(ks[..|ks| - 1]);
      assert ks == ks[..|ks| - 1] + [ks[|ks| - 1]];
    }
  }

  lemma {:induction false} WithoutFacts<K>(ks: seq<K>, gone: seq<K>, k: K)
    ensures k in Without(ks, gone) <==> k in ks && k !in gone
  {
    if ks != [] {
      WithoutFacts(ks[..|ks| - 1], gone, k);
      assert ks == ks[..|ks| - 1] + [ks[|ks| - 1]];
    }
  }

  lemma {:induction false} WithoutPush<K>(ks: seq<K>, k: K, gone: seq<K>)
    ensures Without(ks + [k], gone) == Without(ks, gone) + (if k in gone then [] else [k])
  {
    assert (ks + [k])[..|ks + [k]| - 1] == ks;
  }

  lemma {:induction false} WithoutSame<K>(ks: seq<K>, g: seq<K>, h: seq<K>)
    requires forall k <- ks :: k in g <==> k in h
    ensures Without(ks, g) == Without(ks, h)
  {
    if ks != [] { WithoutSame(ks[..|ks| - 1], g, h); }
  }

  /** After distinct keys, a list adds those of its first occurrences that are new. */
  lemma {:induction false} FirstOfJoin<K>(a: seq<K>, b: seq<K>)
    requires Distinct(a)
    ensures FirstOf(a + b) == a + Without(FirstOf(b), a)
  {
    if b == [] {
      FirstOfDistinct(a);
      assert a + b == a;
    } else {
      var init, last := b[..|b| - 1], b[|b| - 1];
      assert (a + b)[..|a + b| - 1] == a + init;
      FirstOfJoin(a, init);
      WithoutFacts(FirstOf(init), a, last);
      WithoutPush(FirstOf(init), last, a);
    }
  }

  /** Only the first occurrences of a front part matter. */
  lemma {:induction false} FirstOfAbsorb<K>(a: seq<K>, b: seq<K>)
    ensures FirstOf(a + b) == FirstOf(FirstOf(a) + b)
  {
    var f := FirstOf(a);
    if b == [] {
      FirstOfFacts(a);
      FirstOfDistinct(f);
      assert a + b == a && f + b == f;
    } else {
      var init := b[..|b| - 1];
      FirstOfAbsorb(a, init);
      assert (a + b)[..|a + b| - 1] == a + init && (f + b)[..|f + b| - 1] == f + init;
    }
  }

  lemma {:induction false} FirstOfKnown<K>(a: seq<K>, p: seq<K>)
    requires Distinct(a) && forall k <- p :: k in a
    ensures FirstOf(a + p) == a
  {
    if p == [] {
      FirstOfDistinct(a);
      assert a + p == a;
    } else {
      assert (a + p)[..|a + p| - 1] == a + p[..|p| - 1];
      FirstOfKnown(a, p[..|p| - 1]);
    }
  }

  /** A key that is the first new one after `a` may as well stand at its end. */
  lemma {:induction false} FirstNewKey<K>(a: seq<K>, p: seq<K>, r: K, s: seq<K>)
    requires Distinct(a) && r !in a && forall k <- p :: k in a
    ensures FirstOf(a + (p + [r] + s)) == FirstOf((a + [r]) + (p + [r] + s))
  {
    var front, led := p + [r], a + [r];
    assert FirstOf(a + front) == led by {
      FirstOfKnown(a, p);
      assert (a + front)[..|a + front| - 1] == a + p;
    }
    assert FirstOf(led + front) == led by { FirstOfKnown(led, front); }
    FirstOfGroup(a, front, s);
    FirstOfGroup(led, front, s);
  }

  lemma {:induction false} FirstOfGroup<K>(a: seq<K>, b: seq<K>, c: seq<K>)
    ensures FirstOf(a + (b + c)) == FirstOf(FirstOf(a + b) + c)
  {
    assert a + (b + c) == (a + b) + c;
    FirstOfAbsorb(a + b, c);
  }

  // ── What stands before what ──────────────────────────────────────────────

  lemma {:induction false} BeforeJoin<K>(a: seq<K>, b: seq<K>, x: K, y: K)
    requires x in a && y in b
    ensures Before(a + b, x, y)
  {
    var i :| 0 <= i < |a| && a[i] == x;
    var j :| 0 <= j < |b| && b[j] == y;
    assert (a + b)[i] == x && (a + b)[|a| + j] == y;
  }

  lemma {:induction false} BeforeWithin<K>(a: seq<K>, b: seq<K>, x: K, y: K)
    requires Before(a, x, y)
    ensures Before(a + b, x, y)
  {
    var i, j :| 0 <= i < j < |a| && a[i] == x && a[j] == y;
    assert (a + b)[i] == x && (a + b)[j] == y;
  }

  lemma {:induction false} NotBothWays<K>(ks: seq<K>, x: K, y: K)
    requires Distinct(ks) && Before(ks, x, y)
    ensures !Before(ks, y, x)
  {
    var i, j :| 0 <= i < j < |ks| && ks[i] == x && ks[j] == y;
    forall m, n | 0 <= m < n < |ks| ensures ks[m] != y || ks[n] != x {
      assert ks[m] == y ==> m == j;
      assert ks[n] == x ==> n == i;
    }
  }

  /** A key that the front part has comes before one that only the rest has. */
  lemma {:induction false} FirstOfBefore<K>(a: seq<K>, b: seq<K>, x: K, y: K)
    requires x in a && y !in a && y in b
    ensures Before(FirstOf(a + b), x, y)
  {
    var f := FirstOf(a);
    FirstOfFacts(a);
    FirstOfAbsorb(a, b);
    FirstOfJoin(f, b);
    FirstOfFacts(b);
    WithoutFacts(FirstOf(b), f, y);
    BeforeJoin(f, Without(FirstOf(b), f), x, y);
  }

  lemma {:induction false} SelectHas<K>(order: seq<K>, ks: seq<K>, k: K)
    ensures k in Select(order, ks) <==> k in order && k in ks
  {
    if order != [] {
      var init, last := order[..|order| - 1], order[|order| - 1];
      assert order == init + [last];
      SelectHas(init, ks, k);
    }
  }

  /** Picked keys keep their order. */
  lemma {:induction false} SelectBefore<K>(order: seq<K>, ks: seq<K>, i: nat, j: nat)
    requires i < j < |order| && order[i] in ks && order[j] in ks
    ensures Before(Select(order, ks), order[i], order[j])
  {
    var init, last := order[..|order| - 1], order[|order| - 1];
    var tail := if last in ks then [last] else [];
    if j == |order| - 1 {
      SelectHas(init, ks, order[i]);
      assert init[i] == order[i];
      BeforeJoin(Select(init, ks), tail, order[i], last);
    } else {
      assert init[i] == order[i] && init[j] == order[j];
      SelectBefore(init, ks, i, j);
      BeforeWithin(Select(init, ks), tail, order[i], order[j]);
    }
  }

  /** Three lists in a row: a key of an earlier one stands before a key of a later one. */
  lemma {:induction false} RankBefore<K>(a: seq<K>, b: seq<K>, c: seq<K>, x: K, y: K)
    requires (x in a && y in b + c) || (x in b && y in c)
    ensures Before(a + b + c, x, y)
  {
    if x in a && y in b + c {
      BeforeJoin(a, b + c, x, y);
      assert a + b + c == a + (b + c);
    } else {
      BeforeJoin(a + b, c, x, y);
    }
  }

  /** A list that begins with the picked keys has them in their order. */
  lemma {:induction false} PickedBefore<K>(order: seq<K>, other: seq<K>, rest: seq<K>, ks: seq<K>, i: nat, j: nat)
    requires ks == Select(order, ks) + Select(other, ks) + rest
    requires i < j < |order| && order[i] in ks && order[j] in ks
    ensures Before(ks, order[i], order[j])
  {
    SelectBefore(order, ks, i, j);
    BeforeWithin(Select(order, ks), Select(other, ks) + rest, order[i], order[j]);
    assert ks == Select(order, ks) + (Select(other, ks) + rest);
  }
}
