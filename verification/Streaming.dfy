/** Incremental streaming of a growing text. */
module Streaming {
  import opened Collections

  /** The length of the longest text, 0 if there is none. */
  function Longest(texts: seq<string>): (m: nat)
    ensures forall k :: 0 <= k < |texts| ==> |texts[k]| <= m
    ensures m > 0 ==> exists k :: 0 <= k < |texts| && |texts[k]| == m
  {
    if texts == [] then 0
    else
      SplitLast(texts);
      var m := Longest(DropLast(texts));
      if m < |Last(texts)| then |Last(texts)| else m
  }

  /** Python's text[from:]: past the end it is empty. */
  function From(text: string, from: nat): string {
    if from <= |text| then text[from..] else ""
  }

  /** What is sent for each text: the part beyond everything seen before. */
  function Chunks(texts: seq<string>): (chunks: seq<string>)
    ensures |chunks| == |texts|
  {
    if texts == [] then []
    else Chunks(DropLast(texts)) + [From(Last(texts), Longest(DropLast(texts)))]
  }

  function Concat(chunks: seq<string>): string {
    if chunks == [] then "" else Concat(DropLast(chunks)) + Last(chunks)
  }

  /** The texts of the outputs before the first that has not exactly one. */
  function Texts(outputs: seq<seq<string>>): seq<string> {
    if outputs == [] || |outputs[0]| != 1 then [] else [outputs[0][0]] + Texts(outputs[1..])
  }

  lemma TextsFrom(outputs: seq<seq<string>>, i: nat)
    requires i < |outputs|
    ensures Texts(outputs[i..])
         == if |outputs[i]| != 1 then [] else [outputs[i][0]] + Texts(outputs[i + 1..])
  {
    assert outputs[i..] == [outputs[i]] + outputs[i + 1..];
  }

  lemma NoTexts()
    ensures Texts([]) == [] && Chunks([]) == [] && Longest([]) == 0
  {
  }

  /** Adding the length of what is sent keeps the count the maximum. */
  lemma OneMoreText(texts: seq<string>, text: string)
    ensures var chunk := From(text, Longest(texts));
            Chunks(texts + [text]) == Chunks(texts) + [chunk] && Longest(texts + [text]) == Longest(texts) + |chunk|
  {
    DropAppended(texts, text);
  }

  lemma {:induction false} ChunkAt(texts: seq<string>, k: nat)
    requires k < |texts|
    ensures Chunks(texts)[k] == From(texts[k], Longest(texts[..k]))
  {
    if k < |texts| - 1 {
      ChunkAt(DropLast(texts), k);
      assert DropLast(texts)[..k] == texts[..k];
    }
  }

  lemma {:induction false} TextAt(outputs: seq<seq<string>>, k: nat)
    requires k < |Texts(outputs)|
    ensures k < |outputs| && |outputs[k]| == 1 && Texts(outputs)[k] == outputs[k][0]
  {
    if k > 0 {
      TextAt(outputs[1..], k - 1);
    }
  }

  lemma {:induction false} AllTexts(outputs: seq<seq<string>>)
    requires forall k :: 0 <= k < |outputs| ==> |outputs[k]| == 1
    ensures |Texts(outputs)| == |outputs|
  {
    if outputs != [] {
      AllTexts(outputs[1..]);
    }
  }

  lemma ChunksOfOutputs(outputs: seq<seq<string>>, chunks: seq<string>)
    requires chunks == Chunks(Texts(outputs))
    ensures forall k :: 0 <= k < |chunks| ==>
              && k < |outputs| && |outputs[k]| == 1
              && chunks[k] == From(outputs[k][0], Longest(Texts(outputs)[..k]))
  {
    forall k: nat | k < |chunks|
      ensures k < |outputs| && |outputs[k]| == 1 && chunks[k] == From(outputs[k][0], Longest(Texts(outputs)[..k]))
    {
      TextAt(outputs, k);
      ChunkAt(Texts(outputs), k);
    }
  }

  /** Streams until the outputs end or an assertion on their number fails. */
  method StreamResults(outputs: seq<seq<string>>) returns (chunks: seq<string>, numReturned: nat, failed: bool)
    ensures failed <==> exists k :: 0 <= k < |outputs| && |outputs[k]| != 1
    ensures chunks == Chunks(Texts(outputs))
    ensures !failed ==> |chunks| == |outputs|
    ensures forall k :: 0 <= k < |chunks| ==>
              && k < |outputs| && |outputs[k]| == 1
              && chunks[k] == From(outputs[k][0], Longest(Texts(outputs)[..k]))
    ensures numReturned == Longest(Texts(outputs))
  {
    hide Texts, Chunks, Longest, From;
    chunks, numReturned := [], 0;
    NoTexts();
    assert outputs[0..] == outputs;
    var texts: seq<string> := [];
    for i := 0 to |outputs|
      invariant forall k :: 0 <= k < i ==> |outputs[k]| == 1
      invariant texts + Texts(outputs[i..]) == Texts(outputs)
      invariant chunks == Chunks(texts)
      invariant numReturned == Longest(texts)
    {
      TextsFrom(outputs, i);
      if |outputs[i]| != 1 {
        assert texts == Texts(outputs);
        ChunksOfOutputs(outputs, chunks);
        return chunks, numReturned, true;
      }
      var textOutput := From(outputs[i][0], numReturned);
      OneMoreText(texts, outputs[i][0]);
      assert texts + Texts(outputs[i..]) == texts + [outputs[i][0]] + Texts(outputs[i + 1..]);
      texts := texts + [outputs[i][0]];
      chunks := chunks + [textOutput];
      numReturned := numReturned + |textOutput|;
    }
    failed := false;
    assert texts == Texts(outputs) by {
      assert outputs[|outputs|..] == [];
    }
    ChunksOfOutputs(outputs, chunks);
    AllTexts(outputs);
  }

  /** Each text extends the one before. */
  ghost predicate Growing(texts: seq<string>) {
    forall k :: 0 < k < |texts| ==> texts[k - 1] <= texts[k]
  }

  /** After every text the client has received exactly that text. */
  ghost predicate Faithful(texts: seq<string>) {
    forall k :: 0 < k <= |texts| ==> Concat(Chunks(texts[..k])) == texts[k - 1]
  }

  lemma ReceivedSoFar(texts: seq<string>, k: nat)
    requires 0 < k <= |texts|
    ensures Concat(Chunks(texts[..k]))
         == Concat(Chunks(texts[..k - 1])) + From(texts[k - 1], Longest(texts[..k - 1]))
    ensures Longest(texts[..k]) >= |texts[k - 1]|
    ensures Longest(texts[..k]) == Longest(texts[..k - 1]) || Longest(texts[..k]) == |texts[k - 1]|
  {
    assert DropLast(texts[..k]) == texts[..k - 1];
    DropAppended(Chunks(texts[..k - 1]), From(texts[k - 1], Longest(texts[..k - 1])));
  }

  lemma NothingReceived()
    ensures Concat(Chunks([])) == "" && Longest([]) == 0
  {
  }

  lemma Extended(before: string, text: string)
    requires before <= text
    ensures before + From(text, |before|) == text
  {
  }

  lemma {:induction false} GrowingIsFaithful(texts: seq<string>, k: nat)
    requires Growing(texts) && 0 < k <= |texts|
    ensures Concat(Chunks(texts[..k])) == texts[k - 1]
    ensures Longest(texts[..k]) == |texts[k - 1]|
  {
    hide Concat, Chunks, Longest, From;
    ReceivedSoFar(texts, k);
    var before := if k == 1 then "" else texts[k - 2];
    if k == 1 {
      assert texts[..0] == [];
      NothingReceived();
    } else {
      GrowingIsFaithful(texts, k - 1);
    }
    Extended(before, texts[k - 1]);
  }

  /** The client has the latest text at every cut of the stream exactly when
      every text extends the one before. */
  lemma FaithfulIffGrowing(texts: seq<string>)
    ensures Faithful(texts) <==> Growing(texts)
  {
    if Growing(texts) {
      forall k | 0 < k <= |texts| ensures Concat(Chunks(texts[..k])) == texts[k - 1] {
        GrowingIsFaithful(texts, k);
      }
    }
    if Faithful(texts) {
      forall k | 0 < k < |texts| ensures texts[k - 1] <= texts[k] {
        ReceivedSoFar(texts, k + 1);
        assert Concat(Chunks(texts[..k])) == texts[k - 1];
        assert Concat(Chunks(texts[..k + 1])) == texts[k];
      }
    }
  }
}
