/** Splitting a file into documents at every "---". */
module Documents {
  import opened Collections

  const SEPARATOR := "---"

  predicate SeparatorAt(s: string, i: int) {
    0 <= i && i + 3 <= |s| && s[i] == '-' && s[i + 1] == '-' && s[i + 2] == '-'
  }

  /** The leftmost separator at or after `from`, or -1. */
  function FindFrom(s: string, from: nat): (i: int)
    requires from <= |s|
    ensures -1 <= i
    ensures i >= 0 ==> from <= i && SeparatorAt(s, i) && forall k :: from <= k < i ==> !SeparatorAt(s, k)
    ensures i < 0 ==> forall k :: from <= k ==> !SeparatorAt(s, k)
    decreases |s| - from
  {
    if SeparatorAt(s, from) then from else if from == |s| then -1 else FindFrom(s, from + 1)
  }

  /** Cuts at the leftmost separators that do not overlap. */
  function Split(s: string): (pieces: seq<string>)
    ensures pieces != []
    decreases |s|
  {
    var i := FindFrom(s, 0);
    if i < 0 then [s] else [s[..i]] + Split(s[i + 3..])
  }

  function Join(pieces: seq<string>): string
    requires pieces != []
  {
    if |pieces| == 1 then pieces[0] else pieces[0] + SEPARATOR + Join(pieces[1..])
  }

  lemma CutAround(s: string, i: nat)
    requires SeparatorAt(s, i)
    ensures s[..i] + SEPARATOR + s[i + 3..] == s
  {
  }

  /** Joining the pieces gives the text back, whatever the text. */
  lemma {:induction false} JoinOfSplit(s: string)
    ensures Join(Split(s)) == s
    decreases |s|
  {
    var i := FindFrom(s, 0);
    if i >= 0 {
      hide FindFrom;
      JoinOfSplit(s[i + 3..]);
      assert Split(s)[1..] == Split(s[i + 3..]);
      CutAround(s, i);
    }
  }

  predicate HasNoSeparator(s: string) {
    forall k :: 0 <= k < |s| ==> !SeparatorAt(s, k)
  }

  /** No document holds a separator, and none but the last ends in a dash. */
  predicate Separable(docs: seq<string>) {
    && (forall d :: d in docs ==> HasNoSeparator(d))
    && (forall k :: 0 <= k < |docs| - 1 ==> docs[k] == "" || Last(docs[k]) != '-')
  }

  lemma {:induction false} SplitIsSeparable(s: string)
    ensures Separable(Split(s))
    decreases |s|
  {
    var i := FindFrom(s, 0);
    if i >= 0 {
      SplitIsSeparable(s[i + 3..]);
      forall k | 0 <= k < i ensures !SeparatorAt(s[..i], k) {
        assert !SeparatorAt(s, k);
      }
      if i > 0 {
        assert !SeparatorAt(s, i - 1);
      }
    }
  }

  lemma FirstSeparator(d: string, rest: string)
    requires HasNoSeparator(d) && (d == "" || Last(d) != '-')
    ensures FindFrom(d + SEPARATOR + rest, 0) == |d|
  {
    var s := d + SEPARATOR + rest;
    assert SeparatorAt(s, |d|);
    forall k | 0 <= k < |d| ensures !SeparatorAt(s, k) {
      if k + 3 <= |d| {
        assert !SeparatorAt(d, k);
        assert s[k] == d[k] && s[k + 1] == d[k + 1] && s[k + 2] == d[k + 2];
      } else {
        assert s[|d| - 1] == Last(d);
      }
    }
  }

  lemma SplitAtFirst(d: string, rest: string)
    requires HasNoSeparator(d) && (d == "" || Last(d) != '-')
    ensures Split(d + SEPARATOR + rest) == [d] + Split(rest)
  {
    FirstSeparator(d, rest);
    var s := d + SEPARATOR + rest;
    assert s[..|d|] == d && s[|d| + 3..] == rest;
  }

  lemma TailSeparable(docs: seq<string>)
    requires |docs| > 1 && Separable(docs)
    ensures Separable(docs[1..])
    ensures HasNoSeparator(docs[0]) && (docs[0] == "" || Last(docs[0]) != '-')
  {
  }

  lemma {:induction false} SplitOfSeparable(docs: seq<string>)
    requires docs != [] && Separable(docs)
    ensures Split(Join(docs)) == docs
  {
    if |docs| == 1 {
      assert docs[0] in docs && HasNoSeparator(docs[0]);
    } else {
      hide Separable, HasNoSeparator;
      TailSeparable(docs);
      SplitAtFirst(docs[0], Join(docs[1..]));
      SplitOfSeparable(docs[1..]);
      assert docs == [docs[0]] + docs[1..];
    }
  }

  /** Splitting recovers the joined documents exactly when they can be told apart. */
  lemma SplitOfJoinIff(docs: seq<string>)
    requires docs != []
    ensures Split(Join(docs)) == docs <==> Separable(docs)
  {
    SplitIsSeparable(Join(docs));
    if Separable(docs) {
      SplitOfSeparable(docs);
    }
  }
}
