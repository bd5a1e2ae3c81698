/** Sums over finite sets and sequences. */
module Sums {
  ghost function SumOver<K(!new)>(keys: set<K>, f: K -> int): int
  {
    if keys == {} then 0
    else
      var k :| k in keys;
      f(k) + SumOver(keys - {k}, f)
  }

  /** The sum does not depend on the element taken out first. */
  lemma {:induction false} SumTake<K(!new)>(keys: set<K>, k: K, f: K -> int)
    requires k in keys
    ensures SumOver(keys, f) == f(k) + SumOver(keys - {k}, f)
    decreases |keys|
  {
    var x :| x in keys && SumOver(keys, f) == f(x) + SumOver(keys - {x}, f);
    if x != k {
      SumTake(keys - {x}, k, f);
      SumTake(keys - {k}, x, f);
      assert keys - {x} - {k} == keys - {k} - {x};
    }
  }

  lemma SumAdd<K(!new)>(keys: set<K>, k: K, f: K -> int)
    requires k !in keys
    ensures SumOver(keys + {k}, f) == SumOver(keys, f) + f(k)
  {
    SumTake(keys + {k}, k, f);
    assert keys + {k} - {k} == keys;
  }

  lemma {:induction false} SumSame<K(!new)>(keys: set<K>, f: K -> int, g: K -> int)
    requires forall k :: k in keys ==> f(k) == g(k)
    ensures SumOver(keys, f) == SumOver(keys, g)
    decreases |keys|
  {
    if keys != {} {
      var k :| k in keys;
      SumTake(keys, k, f);
      SumTake(keys, k, g);
      SumSame(keys - {k}, f, g);
    }
  }

  /** Changing the summand at one key. */
  lemma SumChange<K(!new)>(keys: set<K>, k: K, f: K -> int, g: K -> int)
    requires k in keys && forall x :: x in keys && x != k ==> f(x) == g(x)
    ensures SumOver(keys, g) == SumOver(keys, f) - f(k) + g(k)
  {
    SumTake(keys, k, f);
    SumTake(keys, k, g);
    SumSame(keys - {k}, f, g);
  }

  lemma {:induction false} SumPlus<K(!new)>(keys: set<K>, f: K -> int, g: K -> int, h: K -> int)
    requires forall k :: k in keys ==> h(k) == f(k) + g(k)
    ensures SumOver(keys, h) == SumOver(keys, f) + SumOver(keys, g)
    decreases |keys|
  {
    if keys != {} {
      var k :| k in keys;
      SumTake(keys, k, f);
      SumTake(keys, k, g);
      SumTake(keys, k, h);
      SumPlus(keys - {k}, f, g, h);
    }
  }

  lemma {:induction false} SumZero<K(!new)>(keys: set<K>, f: K -> int)
    requires forall k :: k in keys ==> f(k) == 0
    ensures SumOver(keys, f) == 0
    decreases |keys|
  {
    if keys != {} {
      var k :| k in keys;
      SumTake(keys, k, f);
      SumZero(keys - {k}, f);
    }
  }
}
