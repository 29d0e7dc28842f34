/** The sentence about a comparison of two costs, and what a reader is told by it. */
module Summaries {
  import opened Costs
  import opened Diff
  import opened Quotes

  const NO_CHANGE := "No cost change found!"

  function Summary(costInc: seq<string>, costDec: seq<string>): string {
    var up := if costInc == [] then "" else "There are increase in costs on: '" + Join(costInc, "', '") + "'";
    var down := if costDec == [] then ""
                else (if costInc == [] then "There" else ". And there")
                     + " are decrease in costs on: '" + Join(costDec, "', '") + "'";
    if costInc == [] && costDec == [] then NO_CHANGE else up + down
  }

  lemma SummaryNoChange(costInc: seq<string>, costDec: seq<string>)
    ensures Summary(costInc, costDec) == NO_CHANGE <==> costInc == [] && costDec == []
  {
  }

  // ----- What the sentence says -----

  /** The amount went up, or down. */
  predicate Went(curr: real, prev: real, up: bool) {
    if up then curr > prev else curr < prev
  }

  /** The names of the columns that went up (down), in report order. */
  function Changed(curr: CostRange, prev: CostRange, up: bool): seq<string> {
    (if Went(curr.minRequested, prev.minRequested, up) then ["MIN REQUESTED"] else [])
    + (if Went(curr.hpaBuffer, prev.hpaBuffer, up) then ["MIN REQ + HPA CPU BUFFER"] else [])
    + (if Went(curr.maxRequested, prev.maxRequested, up) then ["MAX REQUESTED"] else [])
    + (if Went(curr.minLimited, prev.minLimited, up) then ["MIN LIMITED"] else [])
    + (if Went(curr.maxLimited, prev.maxLimited, up) then ["MAX LIMITED"] else [])
  }

  ghost predicate NonNegativeAmounts(c: CostRange) {
    forall column :: Amount(c, column) >= 0.0
  }

  lemma ListedIsChanged(curr: CostRange, prev: CostRange, up: bool)
    requires NonNegativeAmounts(curr)
    ensures Listed(Subtract(curr, prev).diffPercentage, up) == Changed(curr, prev, up)
  {
    hide Less, Divide;
    forall c
      ensures Moved(Percentage(Subtract(curr, prev).diffPercentage, c), up)
              <==> Went(Amount(curr, c), Amount(prev, c), up)
    {
      assert Amount(curr, c) >= 0.0;
      PercentageSign(Amount(curr, c), Amount(prev, c));
    }
  }

  /** The words of a header: no quote and no small letter that begins a phrase. */
  predicate PlainWord(h: string) {
    '\'' !in h && 'i' !in h && 'd' !in h
  }

  lemma HeaderIsPlain(c: Column)
    ensures PlainWord(Header(c))
  {
  }

  lemma ListedPlain(p: Percentages, up: bool)
    ensures forall h :: h in Listed(p, up) ==> PlainWord(h)
  {
    hide Header, PlainWord, Moved;
    forall c: Column ensures PlainWord(Header(c)) {
      HeaderIsPlain(c);
    }
  }

  const INCREASE := "increase in costs on: '"
  const DECREASE := "decrease in costs on: '"

  lemma PlainList(hs: seq<string>)
    requires forall h :: h in hs ==> PlainWord(h)
    ensures 'i' !in Join(hs, "', '") && 'd' !in Join(hs, "', '")
    ensures forall h :: h in hs ==> '\'' !in h
  {
    JoinHasNot(hs, "', '", 'i');
    JoinHasNot(hs, "', '", 'd');
  }

  /** The first half of a sentence that tells of increases. */
  lemma IncreaseTold(inc: seq<string>, tail: string)
    requires inc != [] && (forall h :: h in inc ==> PlainWord(h)) && !(", '" <= tail)
    ensures Told("There are " + INCREASE + (Join(inc, "', '") + ("'" + tail)), INCREASE) == inc
  {
    PlainList(inc);
    var pre, rest := "There are ", Join(inc, "', '") + ("'" + tail);
    forall k: nat | k < |pre| ensures !OccursAt(pre + INCREASE + rest, INCREASE, k) {
      assert pre + INCREASE + rest == pre + (INCREASE + rest);
      NoOccurrence(pre, INCREASE + rest, INCREASE, 'i', k);
    }
    ToldAt(pre, INCREASE, rest);
    QuotedJoin(inc, tail);
  }

  /** A sentence that tells of decreases after something without a 'd'. */
  lemma DecreaseTold(pre: string, dec: seq<string>)
    requires dec != [] && forall h :: h in dec ==> PlainWord(h)
    requires forall k: nat :: k < |pre| ==> !OccursAt(pre + DECREASE + (Join(dec, "', '") + "'"), DECREASE, k)
    ensures Told(pre + DECREASE + (Join(dec, "', '") + "'"), DECREASE) == dec
  {
    PlainList(dec);
    assert Join(dec, "', '") + "'" == Join(dec, "', '") + ("'" + "");
    ToldAt(pre, DECREASE, Join(dec, "', '") + "'");
    QuotedJoin(dec, "");
  }

  lemma NotTold(s: string, phrase: string, c: char)
    requires phrase != "" && phrase[0] == c && c !in s
    ensures Told(s, phrase) == []
  {
    forall k: nat | k < |s| ensures !OccursAt(s, phrase, k) {
      assert s + "" == s;
      NoOccurrence(s, "", phrase, c, k);
    }
  }

  lemma Regroup(x: string, i: string, j: string, q: string, y: string, d: string, k: string)
    ensures (x + i) + j + q == x + i + (j + (q + ""))
    ensures ((x + i) + j + q) + ((y + d) + k + q) == x + i + (j + (q + (y + d + (k + q))))
  {
    var tail := (y + d) + k + q;
    assert tail == y + d + (k + q);
    assert ((x + i) + j + q) + tail == x + i + (j + (q + tail));
  }

  lemma IncreasePhrase()
    ensures "There are increase in costs on: '" == "There are " + INCREASE
  {
  }

  lemma DecreasePhrase()
    ensures "There" + " are decrease in costs on: '" == "There are " + DECREASE
  {
  }

  lemma SecondPhrase()
    ensures ". And there" + " are decrease in costs on: '" == ". And there are " + DECREASE
  {
  }

  /** The sentence cut at its phrases. */
  lemma SummaryCut(inc: seq<string>, dec: seq<string>)
    ensures inc != [] && dec == [] ==>
              Summary(inc, dec) == "There are " + INCREASE + (Join(inc, "', '") + ("'" + ""))
    ensures inc == [] && dec != [] ==> Summary(inc, dec) == "There are " + DECREASE + (Join(dec, "', '") + "'")
    ensures inc != [] && dec != [] ==>
              Summary(inc, dec) == "There are " + INCREASE
                + (Join(inc, "', '") + ("'" + (". And there are " + DECREASE + (Join(dec, "', '") + "'"))))
  {
    hide Join, Summary, INCREASE, DECREASE;
    var j, k := Join(inc, "', '"), Join(dec, "', '");
    IncreasePhrase();
    DecreasePhrase();
    SecondPhrase();
    CutUp(inc, dec, j, k);
  }

  lemma CutUp(inc: seq<string>, dec: seq<string>, j: string, k: string)
    requires j == Join(inc, "', '") && k == Join(dec, "', '")
    requires "There are increase in costs on: '" == "There are " + INCREASE
    requires "There" + " are decrease in costs on: '" == "There are " + DECREASE
    requires ". And there" + " are decrease in costs on: '" == ". And there are " + DECREASE
    ensures inc != [] && dec == [] ==> Summary(inc, dec) == "There are " + INCREASE + (j + ("'" + ""))
    ensures inc == [] && dec != [] ==> Summary(inc, dec) == "There are " + DECREASE + (k + "'")
    ensures inc != [] && dec != [] ==>
              Summary(inc, dec) == "There are " + INCREASE + (j + ("'" + (". And there are " + DECREASE + (k + "'"))))
  {
    hide INCREASE, DECREASE, Join;
    Regroup("There are ", INCREASE, j, "'", ". And there are ", DECREASE, k);
  }

  lemma OnlyIncreases(inc: seq<string>)
    requires inc != [] && forall h :: h in inc ==> PlainWord(h)
    ensures Told(Summary(inc, []), INCREASE) == inc && Told(Summary(inc, []), DECREASE) == []
  {
    PlainList(inc);
    SummaryCut(inc, []);
    hide *;
    IncreaseTold(inc, "");
    NoLetterD(Join(inc, "', '"));
    NotTold("There are " + INCREASE + (Join(inc, "', '") + ("'" + "")), DECREASE, 'd');
  }

  lemma NoLetterD(rest: string)
    requires 'd' !in rest
    ensures 'd' !in "There are " + INCREASE + (rest + ("'" + "")) && DECREASE != "" && DECREASE[0] == 'd'
  {
  }

  /** Where only one letter could begin a phrase and the text there goes on otherwise. */
  lemma NoPhraseAt(a: string, c: char, b: string, t: string, j: nat, k: nat)
    requires 0 < j < |t| && t[0] == c && c !in a && c !in b && j <= |b| && b[j - 1] != t[j]
    ensures !OccursAt(a + ([c] + b), t, k)
  {
    var s := a + ([c] + b);
    if OccursAt(s, t, k) {
      OccursLetter(s, t, k, 0);
      OccursLetter(s, t, k, j);
    }
  }

  lemma DecreaseSplit(rest: string)
    ensures "There are " + DECREASE + rest == "There are decrease " + ("i" + ("n costs on: '" + rest))
    ensures "There are " + DECREASE + rest == "There are " + (DECREASE + rest)
  {
  }

  /** "in costs" does not begin an "increase". */
  lemma NoIncrease(rest: string)
    requires 'i' !in rest
    ensures Told("There are " + DECREASE + rest, INCREASE) == []
  {
    DecreaseSplit(rest);
    var b := "n costs on: '" + rest;
    InCosts(rest);
    hide *;
    forall k: nat ensures !OccursAt("There are decrease " + ("i" + b), INCREASE, k) {
      NoPhraseAt("There are decrease ", 'i', b, INCREASE, 2, k);
    }
    NeverTold("There are decrease " + ("i" + b), INCREASE);
  }

  lemma NeverTold(s: string, phrase: string)
    requires forall k: nat :: !OccursAt(s, phrase, k)
    ensures Told(s, phrase) == []
  {
  }

  lemma InCosts(rest: string)
    requires 'i' !in rest
    ensures var b := "n costs on: '" + rest;
            && 'i' !in b && |b| >= 2 && b[1] == ' ' && 'i' !in "There are decrease "
            && |INCREASE| > 2 && INCREASE[0] == 'i' && INCREASE[2] == 'c'
  {
    assert ("n costs on: '" + rest)[1] == "n costs on: '"[1];
  }

  lemma DecreaseBegins()
    ensures 'd' !in "There are " && DECREASE != "" && DECREASE[0] == 'd'
  {
  }

  lemma OnlyDecreases(dec: seq<string>)
    requires dec != [] && forall h :: h in dec ==> PlainWord(h)
    ensures Told(Summary([], dec), INCREASE) == [] && Told(Summary([], dec), DECREASE) == dec
  {
    hide Told, PlainWord;
    PlainList(dec);
    var rest := Join(dec, "', '") + "'";
    SummaryCut([], dec);
    DecreaseBegins();
    hide *;
    NoIncrease(rest);
    DecreaseSplit(rest);
    forall k: nat | k < |"There are "| ensures !OccursAt("There are " + DECREASE + rest, DECREASE, k) {
      NoOccurrence("There are ", DECREASE + rest, DECREASE, 'd', k);
    }
    DecreaseTold("There are ", dec);
  }

  lemma AndIsNoDecrease(a: string, more: string, k: nat)
    requires 'd' !in a && k < |a| + 12
    ensures !OccursAt(a + ("d" + (" there are " + more)), DECREASE, k)
  {
    var s := a + ("d" + (" there are " + more));
    assert k < |a| ==> s[k] == a[k] && a[k] in a;
    assert s[|a|] == 'd' && s[|a| + 1] == ' ';
    assert k > |a| ==> s[k] == " there are "[k - |a| - 1];
    if OccursAt(s, DECREASE, k) {
      OccursLetter(s, DECREASE, k, 0);
      OccursLetter(s, DECREASE, k, 1);
    }
  }

  /** What precedes the decreases in a sentence that tells of both. */
  function BeforeDecrease(inc: seq<string>): string {
    "There are " + INCREASE + Join(inc, "', '") + "'. An"
  }

  lemma RegroupTwice(x: string, j: string, q: string, d: string, t: string, m: string, y: string, rest: string)
    requires q + y == m + (d + t)
    ensures x + (j + (q + (y + rest))) == (x + j + m) + (d + t) + rest
    ensures x + (j + (q + (y + rest))) == (x + j + m) + (d + (t + rest))
  {
    assert q + (y + rest) == (q + y) + rest;
    assert (q + y) + rest == m + (d + (t + rest));
    assert x + (j + (m + (d + (t + rest)))) == (x + j + m) + (d + (t + rest));
  }

  lemma BothSplit(inc: seq<string>, rest: string)
    ensures var s := "There are " + INCREASE + (Join(inc, "', '") + ("'" + (". And there are " + rest)));
            && s == BeforeDecrease(inc) + ("d" + " there are ") + rest
            && s == BeforeDecrease(inc) + ("d" + (" there are " + rest))
    ensures !(", '" <= ". And there are " + rest) && |"d" + " there are "| == 12
  {
    assert "'" + ". And there are " == "'. An" + ("d" + " there are ");
    assert (". And there are " + rest)[0] == '.';
    hide INCREASE, Join;
    RegroupTwice("There are " + INCREASE, Join(inc, "', '"), "'", "d", " there are ", "'. An", ". And there are ",
                 rest);
  }

  lemma BothTold(inc: seq<string>, dec: seq<string>)
    requires inc != [] && dec != []
    requires (forall h :: h in inc ==> PlainWord(h)) && forall h :: h in dec ==> PlainWord(h)
    ensures Told(Summary(inc, dec), INCREASE) == inc && Told(Summary(inc, dec), DECREASE) == dec
  {
    NoDBefore(inc);
    SummaryCut(inc, dec);
    hide *;
    var a, rest, pre := BeforeDecrease(inc), Join(dec, "', '") + "'", BeforeDecrease(inc) + ("d" + " there are ");
    BothSplit(inc, DECREASE + rest);
    assert ". And there are " + (DECREASE + rest) == ". And there are " + DECREASE + rest;
    IncreaseTold(inc, ". And there are " + DECREASE + rest);
    assert pre + (DECREASE + rest) == pre + DECREASE + rest;
    forall k: nat | k < |pre| ensures !OccursAt(pre + DECREASE + rest, DECREASE, k) {
      AndIsNoDecrease(a, DECREASE + rest, k);
    }
    DecreaseTold(pre, dec);
  }

  lemma NoDBefore(inc: seq<string>)
    requires forall h :: h in inc ==> PlainWord(h)
    ensures 'd' !in BeforeDecrease(inc)
  {
    hide Join;
    PlainList(inc);
  }

  lemma NothingTold()
    ensures Told(NO_CHANGE, INCREASE) == [] && Told(NO_CHANGE, DECREASE) == []
  {
    NotTold(NO_CHANGE, INCREASE, 'i');
    assert NO_CHANGE == "No cost change foun" + ("d" + "!");
    forall k: nat ensures !OccursAt(NO_CHANGE, DECREASE, k) {
      NoPhraseAt("No cost change foun", 'd', "!", DECREASE, 1, k);
    }
  }

  /** The words quoted after each phrase are exactly the columns of its list. */
  lemma SummaryTells(p: Percentages)
    ensures var (inc, dec) := (Listed(p, true), Listed(p, false));
            && Told(Summary(inc, dec), INCREASE) == inc && Told(Summary(inc, dec), DECREASE) == dec
  {
    hide Listed, Told, Summary, PlainWord;
    var inc, dec := Listed(p, true), Listed(p, false);
    ListedPlain(p, true);
    ListedPlain(p, false);
    if inc == [] && dec == [] {
      SummaryNoChange([], []);
      NothingTold();
    } else if dec == [] {
      OnlyIncreases(inc);
    } else if inc == [] {
      OnlyDecreases(dec);
    } else {
      BothTold(inc, dec);
    }
  }

  /** For non-negative current amounts the sentence names, after "increase in costs
      on", exactly the columns that went up, after "decrease in costs on" exactly
      those that went down, and neither when nothing changed. */
  ghost predicate TellsChanges(text: string, curr: CostRange, prev: CostRange) {
    && Told(text, "increase in costs on: '") == Changed(curr, prev, true)
    && Told(text, "decrease in costs on: '") == Changed(curr, prev, false)
    && (Holds(text, "increase in costs on: '") <==> Changed(curr, prev, true) != [])
    && (Holds(text, "decrease in costs on: '") <==> Changed(curr, prev, false) != [])
    && (text == "No cost change found!" <==> forall c :: Amount(curr, c) == Amount(prev, c))
  }

  lemma SummaryTellsChanges(curr: CostRange, prev: CostRange)
    requires NonNegativeAmounts(curr)
    ensures var p := Subtract(curr, prev).diffPercentage;
            TellsChanges(Summary(Listed(p, true), Listed(p, false)), curr, prev)
  {
    hide Told, Summary, Listed, Changed, Holds;
    var p := Subtract(curr, prev).diffPercentage;
    SummaryTells(p);
    ToldIffHolds(Summary(Listed(p, true), Listed(p, false)), INCREASE);
    ToldIffHolds(Summary(Listed(p, true), Listed(p, false)), DECREASE);
    ListedIsChanged(curr, prev, true);
    ListedIsChanged(curr, prev, false);
    SummaryNoChange(Listed(p, true), Listed(p, false));
    NoneChanged(curr, prev);
  }

  lemma NoneChanged(curr: CostRange, prev: CostRange)
    ensures Changed(curr, prev, true) == [] && Changed(curr, prev, false) == []
            <==> forall c :: Amount(curr, c) == Amount(prev, c)
  {
    assert Amount(curr, MinRequested) == curr.minRequested && Amount(curr, HpaBuffer) == curr.hpaBuffer;
    assert Amount(curr, MaxRequested) == curr.maxRequested && Amount(curr, MinLimited) == curr.minLimited;
    assert Amount(curr, MaxLimited) == curr.maxLimited;
  }

  method Status(d: DiffCostRange) returns (summary: string, costIncrease: bool)
    ensures costIncrease <==> Listed(d.diffPercentage, true) != []
    ensures summary == Summary(Listed(d.diffPercentage, true), Listed(d.diffPercentage, false))
    ensures d == Subtract(d.costCurr, d.costPrev) && NonNegativeAmounts(d.costCurr) ==>
              && TellsChanges(summary, d.costCurr, d.costPrev)
              && (costIncrease <==> Changed(d.costCurr, d.costPrev, true) != [])
  {
    hide Listed, Changed, TellsChanges, NonNegativeAmounts, Join, Subtract, Told, Quoted;
    if d == Subtract(d.costCurr, d.costPrev) && NonNegativeAmounts(d.costCurr) {
      SummaryTellsChanges(d.costCurr, d.costPrev);
      ListedIsChanged(d.costCurr, d.costPrev, true);
    }
    var costInc := Increases(d.diffPercentage);
    var costDec := Decreases(d.diffPercentage);
    summary, costIncrease := "", false;
    if |costInc| > 0 {
      costIncrease := true;
      summary := summary + ("There are increase in costs on: '" + Join(costInc, "', '") + "'");
    }
    if |costDec| > 0 {
      var start := "There";
      if |summary| > 0 {
        start := ". And there";
      }
      summary := summary + (start + " are decrease in costs on: '" + Join(costDec, "', '") + "'");
    }
    if |costInc| == 0 && |costDec| == 0 {
      summary := NO_CHANGE;
    }
  }

  /** For non-negative totals, zero included: a column is listed as increased
      (decreased) exactly when its amount went up (down), the summary says that
      nothing changed exactly when all five amounts are equal, and the previous
      amounts plus the differences are the current ones. */
  lemma DiffReportIsTruthful(curr: CostRange, prev: CostRange)
    requires forall c :: Amount(curr, c) >= 0.0
    ensures var d := Subtract(curr, prev);
            var (up, down) := (Listed(d.diffPercentage, true), Listed(d.diffPercentage, false));
            && (forall c :: Header(c) in up <==> Amount(curr, c) > Amount(prev, c))
            && (forall c :: Header(c) in down <==> Amount(curr, c) < Amount(prev, c))
            && (Summary(up, down) == NO_CHANGE <==> forall c :: Amount(curr, c) == Amount(prev, c))
            && TellsChanges(Summary(up, down), curr, prev)
            && prev.Add(d.diffValue) == curr.(kind := prev.kind)
  {
    hide TellsChanges;
    SummaryTellsChanges(curr, prev);
    var p := Subtract(curr, prev).diffPercentage;
    TruthfulIff(curr, prev);
    forall c
      ensures Header(c) in Listed(p, true) <==> Amount(curr, c) > Amount(prev, c)
      ensures Header(c) in Listed(p, false) <==> Amount(curr, c) < Amount(prev, c)
    {
      assert Truthful(curr, prev, c);
      ListedIffMoved(p, c, true);
      ListedIffMoved(p, c, false);
    }
    SummaryNoChange(Listed(p, true), Listed(p, false));
    OnlyHeadersListed(p, true);
    OnlyHeadersListed(p, false);
  }

  lemma OnlyHeadersListed(p: Percentages, up: bool)
    ensures Listed(p, up) != [] ==> exists c :: Header(c) in Listed(p, up)
  {
  }
}
