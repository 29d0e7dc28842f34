/** Value types and sequence lemmas shared by the other modules. */
module Collections {

  datatype Option<+T> = None | Some(value: T)

  function Last<T>(s: seq<T>): T
    requires s != []
  {
    s[|s| - 1]
  }

  function DropLast<T>(s: seq<T>): seq<T>
    requires s != []
  {
    s[..|s| - 1]
  }

  function Reverse<T>(s: seq<T>): seq<T> {
    seq(|s|, i requires 0 <= i < |s| => s[|s| - 1 - i])
  }

  ghost predicate Distinct<T>(s: seq<T>) {
    forall i, j :: 0 <= i < j < |s| ==> s[i] != s[j]
  }

  /** A fold over a nonempty sequence splits off its last element. */
  lemma SplitLast<T>(s: seq<T>)
    requires s != []
    ensures s == DropLast(s) + [Last(s)]
  {
  }

  lemma DropAppended<T>(s: seq<T>, x: T)
    ensures DropLast(s + [x]) == s
    ensures Last(s + [x]) == x
  {
  }

  /** In a sequence without repetition every element occurs exactly once. */
  lemma DistinctMultiplicity<T>(s: seq<T>, x: T)
    requires Distinct(s)
    ensures multiset(s)[x] == if x in s then 1 else 0
  {
    if s != [] {
      SplitLast(s);
      DistinctMultiplicity(DropLast(s), x);
    }
  }

  lemma SamePrefix<T>(p: seq<T>, a: seq<T>, b: seq<T>)
    requires p + a == p + b
    ensures a == b
  {
    assert a == (p + a)[|p|..];
    assert b == (p + b)[|p|..];
  }

  lemma SameSuffix<T>(a: seq<T>, b: seq<T>, q: seq<T>)
    requires a + q == b + q
    ensures a == b
  {
    assert a == (a + q)[..|a|];
    assert b == (b + q)[..|b|];
  }

  lemma CutAt<T>(s: seq<T>, i: nat)
    requires i < |s|
    ensures s == s[..i] + ([s[i]] + s[i + 1..])
    ensures forall x :: x in s[..i] || x in s[i + 1..] ==> x in s
  {
  }

  lemma TakeOut<T>(s: seq<T>, i: nat)
    requires i < |s|
    ensures multiset(s) == multiset(s[..i] + s[i + 1..]) + multiset{s[i]}
    ensures multiset(s[..i] + s[i + 1..]) == multiset(s) - multiset{s[i]}
  {
    assert s == s[..i] + [s[i]] + s[i + 1..];
  }

  lemma SameRest<T>(a: seq<T>, i: nat, b: seq<T>, k: nat)
    requires multiset(a) == multiset(b) && i < |a| && k < |b| && a[i] == b[k]
    ensures multiset(a[..i] + a[i + 1..]) == multiset(b[..k] + b[k + 1..])
  {
    TakeOut(a, i);
    TakeOut(b, k);
  }

  lemma PermutedEmpty<T>(s: seq<T>)
    requires multiset(s) == multiset{}
    ensures s == []
  {
    assert |multiset(s)| == 0;
  }

  /** Any member of a sequence can come last. */
  lemma WithLast<T>(s: seq<T>, x: T) returns (other: seq<T>)
    requires x in s
    ensures other != [] && Last(other) == x && multiset(other) == multiset(s)
  {
    var k :| 0 <= k < |s| && s[k] == x;
    other := s[..k] + s[k + 1..] + [x];
    assert s == s[..k] + [x] + s[k + 1..];
  }

  /** Any two different members of a sequence can come last. */
  lemma WithLastTwo<T>(s: seq<T>, x: T, y: T) returns (front: seq<T>)
    requires x in s && y in s && x != y
    ensures multiset(front + [x] + [y]) == multiset(s)
  {
    var last := WithLast(s, y);
    SplitLast(last);
    assert x in multiset(last);
    var other := WithLast(DropLast(last), x);
    SplitLast(other);
    front := DropLast(other);
  }

  /** A member of one sequence has a place in any permutation of it. */
  lemma FindInPermutation<T>(a: seq<T>, b: seq<T>) returns (i: nat)
    requires a != [] && multiset(a) == multiset(b)
    ensures i < |b| && b[i] == Last(a)
    ensures multiset(DropLast(a)) == multiset(b[..i] + b[i + 1..])
  {
    SplitLast(a);
    assert Last(a) in multiset(b);
    i :| 0 <= i < |b| && b[i] == Last(a);
    SameRest(a, |a| - 1, b, i);
    assert a[..|a| - 1] + a[|a|..] == DropLast(a);
  }

  function Map<A, B>(s: seq<A>, f: A -> B): seq<B> {
    seq(|s|, i requires 0 <= i < |s| => f(s[i]))
  }

  lemma {:induction false} MapPermuted<A, B>(a: seq<A>, b: seq<A>, f: A -> B)
    requires multiset(a) == multiset(b)
    ensures multiset(Map(a, f)) == multiset(Map(b, f))
  {
    if a == [] {
      PermutedEmpty(b);
    } else {
      var i := FindInPermutation(a, b);
      MapPermuted(DropLast(a), b[..i] + b[i + 1..], f);
      assert Map(a, f) == Map(DropLast(a), f) + [f(Last(a))];
      assert Map(b, f) == Map(b[..i], f) + [f(b[i])] + Map(b[i + 1..], f);
      assert Map(b[..i] + b[i + 1..], f) == Map(b[..i], f) + Map(b[i + 1..], f);
    }
  }
}
