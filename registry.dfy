/** The balloon registry's sequence operations: search by identity and
    removal of one entry, with removal specified by a filter that keeps
    every other entry in its original order. */
module Registry {

  predicate Distinct<T(==)>(s: seq<T>)
  {
    forall i, j :: 0 <= i < j < |s| ==> s[i] != s[j]
  }

  /** Index of the first entry equal to `x`, or -1 when there is none. */
  method FindIndex<T(==)>(s: seq<T>, x: T) returns (index: int)
    ensures -1 <= index < |s|
    ensures index == -1 <==> x !in s
    ensures 0 <= index ==> s[index] == x && x !in s[..index]
  {
    index := 0;
    while index < |s|
      invariant 0 <= index <= |s|
      invariant x !in s[..index]
    {
      if s[index] == x {
        return;
      }
      index := index + 1;
    }
    assert s[..index] == s;
    index := -1;
  }

  /** `s` with every occurrence of `x` dropped and the rest kept in order. */
  function Without<T(==)>(s: seq<T>, x: T): (r: seq<T>)
    ensures |r| <= |s|
  {
    if s == [] then []
    else if s[0] == x then Without(s[1..], x)
    else [s[0]] + Without(s[1..], x)
  }

  /** What the filter keeps: every entry it keeps is an entry of `s` other
      than `x`, and every entry of `s` other than `x` is kept. */
  lemma {:induction false} WithoutMembers<T>(s: seq<T>, x: T)
    ensures forall k :: 0 <= k < |Without(s, x)| ==> Without(s, x)[k] in s && Without(s, x)[k] != x
    ensures forall k :: 0 <= k < |s| && s[k] != x ==> s[k] in Without(s, x)
  {
    if s != [] {
      var t := s[1..];
      WithoutMembers(t, x);
      assert forall k :: 0 <= k < |t| ==> t[k] == s[k + 1];
      assert forall y :: y in t ==> y in s;
    }
  }

  /** Dropping an absent entry changes nothing. */
  lemma {:induction false} WithoutAbsent<T>(s: seq<T>, x: T)
    requires x !in s
    ensures Without(s, x) == s
  {
    if s != [] {
      WithoutAbsent(s[1..], x);
      assert s == [s[0]] + s[1..];
    }
  }

  /** Filtering a concatenation filters each part. */
  lemma {:induction false} WithoutConcat<T>(a: seq<T>, b: seq<T>, x: T)
    ensures Without(a + b, x) == Without(a, x) + Without(b, x)
  {
    if a == [] {
      assert a + b == b;
    } else {
      var c := a + b;
      assert c[0] == a[0] && c[1..] == a[1..] + b;
      WithoutConcat(a[1..], b, x);
      var w, v := Without(a[1..], x), Without(b, x);
      if a[0] == x {
        assert Without(c, x) == w + v;
        assert Without(a, x) == w;
      } else {
        assert Without(c, x) == [a[0]] + (w + v);
        assert Without(a, x) == [a[0]] + w;
        assert [a[0]] + (w + v) == ([a[0]] + w) + v;
      }
    }
  }

  /** In a registry without duplicates, splicing out the entry at `i` is
      the same as dropping that entry by identity: exactly one entry goes,
      and the others keep their relative order. */
  lemma RemoveAtIsWithout<T>(s: seq<T>, i: nat)
    requires Distinct(s) && i < |s|
    ensures s[..i] + s[i + 1..] == Without(s, s[i])
    ensures |Without(s, s[i])| == |s| - 1
  {
    var x := s[i];
    var front, back := s[..i], s[i + 1..];
    assert s == front + ([x] + back);
    assert x !in front by {
      forall k | 0 <= k < |front|
        ensures front[k] != x
      {
        assert front[k] == s[k];
      }
    }
    assert x !in back by {
      forall k | 0 <= k < |back|
        ensures back[k] != x
      {
        assert back[k] == s[i + 1 + k];
      }
    }
    WithoutConcat(front, [x] + back, x);
    WithoutConcat([x], back, x);
    WithoutAbsent(front, x);
    WithoutAbsent(back, x);
    assert [x][1..] == [];
  }

  /** Splicing one entry out of a registry without duplicates leaves a
      registry without duplicates. */
  lemma RemoveAtDistinct<T>(s: seq<T>, i: nat)
    requires Distinct(s) && i < |s|
    ensures Distinct(s[..i] + s[i + 1..])
  {
    var r := s[..i] + s[i + 1..];
    forall a, b | 0 <= a < b < |r|
      ensures r[a] != r[b]
    {
      var a', b' := if a < i then a else a + 1, if b < i then b else b + 1;
      assert r[a] == s[a'] && r[b] == s[b'];
    }
  }
}
