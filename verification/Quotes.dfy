/** What a reader finds in a sentence: the quoted words that follow a phrase. */
module Quotes {
  import opened Collections

  predicate OccursAt(s: string, t: string, i: int) {
    0 <= i && i + |t| <= |s| && s[i..i + |t|] == t
  }

  /** The leftmost occurrence at or after `from`, or -1. */
  function Find(s: string, t: string, from: nat): (i: int)
    requires from <= |s|
    ensures -1 <= i
    ensures i >= 0 ==> from <= i && OccursAt(s, t, i) && forall k :: from <= k < i ==> !OccursAt(s, t, k)
    ensures i < 0 ==> forall k :: from <= k ==> !OccursAt(s, t, k)
    decreases |s| - from
  {
    if OccursAt(s, t, from) then from else if from == |s| then -1 else Find(s, t, from + 1)
  }

  /** The words up to a closing quote, cut at "', '". */
  function Quoted(s: string): (words: seq<string>)
    ensures words != []
    decreases |s|
  {
    var q := Find(s, "'", 0);
    if q < 0 then [s]
    else if OccursAt(s, "', '", q) then [s[..q]] + Quoted(s[q + 4..])
    else [s[..q]]
  }

  /** The quoted words after the first occurrence of a phrase that ends in a quote. */
  function Told(s: string, phrase: string): seq<string> {
    var i := Find(s, phrase, 0);
    if i < 0 then [] else Quoted(s[i + |phrase|..])
  }

  ghost predicate Holds(s: string, t: string) {
    exists i :: OccursAt(s, t, i)
  }

  /** Something is told exactly where the phrase occurs. */
  lemma ToldIffHolds(s: string, phrase: string)
    ensures Told(s, phrase) != [] <==> Holds(s, phrase)
  {
    if Holds(s, phrase) {
      var i :| OccursAt(s, phrase, i);
      assert Find(s, phrase, 0) >= 0;
    }
  }

  function Join(parts: seq<string>, sep: string): string {
    if parts == [] then ""
    else if |parts| == 1 then parts[0]
    else parts[0] + sep + Join(parts[1..], sep)
  }

  lemma FirstQuote(h: string, rest: string)
    requires '\'' !in h
    ensures Find(h + ("'" + rest), "'", 0) == |h|
  {
    var s := h + ("'" + rest);
    assert s[|h|..|h| + 1] == "'";
    assert OccursAt(s, "'", |h|);
    forall k | 0 <= k < |h| ensures !OccursAt(s, "'", k) {
      assert s[k] == h[k] && h[k] in h;
      assert s[k..k + 1][0] == s[k];
    }
  }

  lemma OccursLetter(s: string, t: string, i: int, j: nat)
    requires OccursAt(s, t, i) && j < |t|
    ensures s[i + j] == t[j]
  {
    assert s[i..i + |t|][j] == s[i + j];
  }

  /** A phrase that begins with `c` does not occur where `c` does not. */
  lemma NoOccurrence(a: string, b: string, t: string, c: char, k: nat)
    requires t != "" && t[0] == c && c !in a && k < |a|
    ensures !OccursAt(a + b, t, k)
  {
    assert (a + b)[k] == a[k] && a[k] in a;
    if OccursAt(a + b, t, k) {
      OccursLetter(a + b, t, k, 0);
    }
  }

  lemma OccursTail(s: string, i: nat)
    requires OccursAt(s, "', '", i)
    ensures i + 1 <= |s| && ", '" <= s[i + 1..]
  {
    assert s[i..i + 4][1..] == s[i + 1..][..3];
  }

  lemma OneWord(h: string, after: string)
    requires '\'' !in h && !(", '" <= after)
    ensures Quoted(h + ("'" + after)) == [h]
  {
    var s := h + ("'" + after);
    FirstQuote(h, after);
    assert s[|h| + 1..] == after;
    if OccursAt(s, "', '", |h|) {
      OccursTail(s, |h|);
    }
  }

  lemma WordThenMore(h: string, more: string)
    requires '\'' !in h
    ensures Quoted(h + ("', '" + more)) == [h] + Quoted(more)
  {
    var s := h + ("', '" + more);
    assert s == h + ("'" + (", '" + more));
    FirstQuote(h, ", '" + more);
    assert s[|h|..|h| + 4] == "', '" && s[|h| + 4..] == more;
  }

  /** Quoted words are found as they were joined. */
  lemma {:induction false} QuotedJoin(hs: seq<string>, after: string)
    requires hs != [] && (forall h :: h in hs ==> '\'' !in h) && !(", '" <= after)
    ensures Quoted(Join(hs, "', '") + ("'" + after)) == hs
  {
    if |hs| == 1 {
      OneWord(hs[0], after);
    } else {
      hide Quoted;
      var more := Join(hs[1..], "', '") + ("'" + after);
      assert Join(hs, "', '") + ("'" + after) == hs[0] + ("', '" + more);
      WordThenMore(hs[0], more);
      QuotedJoin(hs[1..], after);
      assert hs == [hs[0]] + hs[1..];
    }
  }

  /** The first place of a phrase, when nothing before it can begin one. */
  lemma ToldAt(pre: string, phrase: string, rest: string)
    requires forall k :: 0 <= k < |pre| ==> !OccursAt(pre + phrase + rest, phrase, k)
    ensures Told(pre + phrase + rest, phrase) == Quoted(rest)
    ensures Find(pre + phrase + rest, phrase, 0) >= 0
  {
    var s := pre + phrase + rest;
    assert s[|pre|..|pre| + |phrase|] == phrase;
    assert OccursAt(s, phrase, |pre|);
    assert s[|pre| + |phrase|..] == rest;
  }

  lemma {:induction false} JoinHasNot(hs: seq<string>, sep: string, c: char)
    requires c !in sep && forall h :: h in hs ==> c !in h
    ensures c !in Join(hs, sep)
  {
    if |hs| > 1 {
      JoinHasNot(hs[1..], sep, c);
    }
  }
}
