/** Lists as the original uses them: removing the first occurrence of a value. */
module Lists {
  function WithoutFirst<T(==)>(s: seq<T>, x: T): seq<T> {
    if s == [] then [] else if s[0] == x then s[1..] else [s[0]] + WithoutFirst(s[1..], x)
  }

  lemma {:induction false} WithoutFirstIsRemoval<T>(s: seq<T>, x: T)
    ensures multiset(WithoutFirst(s, x)) == multiset(s) - multiset{x}
  {
    if s != [] {
      HeadOf(s);
      if s[0] != x {
        WithoutFirstIsRemoval(s[1..], x);
        assert WithoutFirst(s, x)[1..] == WithoutFirst(s[1..], x);
        HeadOf(WithoutFirst(s, x));
        TakeLater(s[0], x, multiset(s[1..]));
      }
    }
  }

  lemma HeadOf<T>(s: seq<T>)
    requires s != []
    ensures multiset(s) == multiset{s[0]} + multiset(s[1..])
  {
    assert s == [s[0]] + s[1..];
  }

  lemma TakeLater<T>(a: T, x: T, m: multiset<T>)
    requires a != x
    ensures multiset{a} + (m - multiset{x}) == multiset{a} + m - multiset{x}
  {
  }

  ghost predicate Distinct<T>(s: seq<T>) {
    forall i, j :: 0 <= i < j < |s| ==> s[i] != s[j]
  }

  lemma {:induction false} WithoutFirstAt<T>(s: seq<T>, i: nat)
    requires i < |s| && Distinct(s)
    ensures WithoutFirst(s, s[i]) == s[..i] + s[i + 1..]
    decreases |s|
  {
    if i > 0 {
      WithoutFirstAt(s[1..], i - 1);
      assert [s[0]] + s[1..][..i - 1] == s[..i];
    }
  }
}
