/** Comparing two costs. Money is exact, but a percentage divides by a total that
    may be zero, so percentages are floats with NaN and the two infinities. */
module Diff {
  import opened Costs

  datatype Float = NaN | NegInf | PosInf | Finite(r: real)

  /** IEEE 754 division of finite numbers, rounding aside. */
  function Divide(a: real, b: real): Float {
    if b != 0.0 then Finite(a / b)
    else if a > 0.0 then PosInf
    else if a < 0.0 then NegInf
    else NaN
  }

  /** IEEE 754 comparison: a NaN is neither above nor below anything. */
  predicate Less(a: Float, b: Float) {
    match (a, b)
    case (NaN, _) => false
    case (_, NaN) => false
    case (Finite(x), Finite(y)) => x < y
    case _ => (a.NegInf? && !b.NegInf?) || (b.PosInf? && !a.PosInf?)
  }

  datatype Column = MinRequested | HpaBuffer | MaxRequested | MinLimited | MaxLimited

  function Header(c: Column): string {
    match c
    case MinRequested => "MIN REQUESTED"
    case HpaBuffer => "MIN REQ + HPA CPU BUFFER"
    case MaxRequested => "MAX REQUESTED"
    case MinLimited => "MIN LIMITED"
    case MaxLimited => "MAX LIMITED"
  }

  function Amount(r: CostRange, c: Column): real {
    match c
    case MinRequested => r.minRequested
    case HpaBuffer => r.hpaBuffer
    case MaxRequested => r.maxRequested
    case MinLimited => r.minLimited
    case MaxLimited => r.maxLimited
  }

  datatype Percentages = Percentages(minRequested: Float, maxRequested: Float, hpaBuffer: Float,
                                     minLimited: Float, maxLimited: Float)

  function Percentage(p: Percentages, c: Column): Float {
    match c
    case MinRequested => p.minRequested
    case HpaBuffer => p.hpaBuffer
    case MaxRequested => p.maxRequested
    case MinLimited => p.minLimited
    case MaxLimited => p.maxLimited
  }

  datatype DiffCostRange = DiffCostRange(kind: string, costCurr: CostRange, costPrev: CostRange,
                                         diffValue: CostRange, diffPercentage: Percentages)

  function Subtract(curr: CostRange, prev: CostRange): DiffCostRange {
    var diff := CostRange(curr.kind,
                          curr.minRequested - prev.minRequested, curr.maxRequested - prev.maxRequested,
                          curr.hpaBuffer - prev.hpaBuffer,
                          curr.minLimited - prev.minLimited, curr.maxLimited - prev.maxLimited);
    var diffP := Percentages(Divide(diff.minRequested * 100.0, curr.minRequested),
                             Divide(diff.maxRequested * 100.0, curr.maxRequested),
                             Divide(diff.hpaBuffer * 100.0, curr.hpaBuffer),
                             Divide(diff.minLimited * 100.0, curr.minLimited),
                             Divide(diff.maxLimited * 100.0, curr.maxLimited));
    DiffCostRange(curr.kind, curr, prev, diff, diffP)
  }

  /** The percentage is above zero (`up`), or below it. */
  predicate Moved(p: Float, up: bool) {
    if up then Less(Finite(0.0), p) else Less(p, Finite(0.0))
  }

  function Entry(p: Percentages, c: Column, up: bool): seq<string> {
    if Moved(Percentage(p, c), up) then [Header(c)] else []
  }

  /** The headers of the columns that moved up (down), in report order. */
  function Listed(p: Percentages, up: bool): seq<string> {
    Entry(p, MinRequested, up) + Entry(p, HpaBuffer, up) + Entry(p, MaxRequested, up)
    + Entry(p, MinLimited, up) + Entry(p, MaxLimited, up)
  }

  method Increases(p: Percentages) returns (costInc: seq<string>)
    ensures costInc == Listed(p, true)
  {
    hide Header, Less;
    costInc := [];
    if Less(Finite(0.0), p.minRequested) { costInc := costInc + [Header(MinRequested)]; }
    if Less(Finite(0.0), p.hpaBuffer) { costInc := costInc + [Header(HpaBuffer)]; }
    assert costInc == Entry(p, MinRequested, true) + Entry(p, HpaBuffer, true);
    if Less(Finite(0.0), p.maxRequested) { costInc := costInc + [Header(MaxRequested)]; }
    if Less(Finite(0.0), p.minLimited) { costInc := costInc + [Header(MinLimited)]; }
    assert costInc == Entry(p, MinRequested, true) + Entry(p, HpaBuffer, true) + Entry(p, MaxRequested, true)
                   + Entry(p, MinLimited, true);
    if Less(Finite(0.0), p.maxLimited) { costInc := costInc + [Header(MaxLimited)]; }
  }

  method Decreases(p: Percentages) returns (costDec: seq<string>)
    ensures costDec == Listed(p, false)
  {
    hide Header, Less;
    costDec := [];
    if Less(p.minRequested, Finite(0.0)) { costDec := costDec + [Header(MinRequested)]; }
    if Less(p.hpaBuffer, Finite(0.0)) { costDec := costDec + [Header(HpaBuffer)]; }
    assert costDec == Entry(p, MinRequested, false) + Entry(p, HpaBuffer, false);
    if Less(p.maxRequested, Finite(0.0)) { costDec := costDec + [Header(MaxRequested)]; }
    if Less(p.minLimited, Finite(0.0)) { costDec := costDec + [Header(MinLimited)]; }
    assert costDec == Entry(p, MinRequested, false) + Entry(p, HpaBuffer, false) + Entry(p, MaxRequested, false)
                   + Entry(p, MinLimited, false);
    if Less(p.maxLimited, Finite(0.0)) { costDec := costDec + [Header(MaxLimited)]; }
  }

  lemma ListedIffMoved(p: Percentages, c: Column, up: bool)
    ensures Header(c) in Listed(p, up) <==> Moved(Percentage(p, c), up)
  {
  }

  lemma DivideIs(a: real, b: real)
    ensures b != 0.0 ==> Divide(a, b).Finite? && Divide(a, b).r * b == a
    ensures b == 0.0 ==> Divide(a, b) == if a > 0.0 then PosInf else if a < 0.0 then NegInf else NaN
  {
  }

  /** A percentage is the change in hundredths of the current amount. */
  lemma PercentageIs(curr: CostRange, prev: CostRange, c: Column)
    ensures var (d, change) := (Subtract(curr, prev), Amount(curr, c) - Amount(prev, c));
            var p := Percentage(d.diffPercentage, c);
            && d.costCurr == curr && d.costPrev == prev && Amount(d.diffValue, c) == change
            && (Amount(curr, c) != 0.0 ==> p.Finite? && p.r * Amount(curr, c) == change * 100.0)
            && (Amount(curr, c) == 0.0 ==>
                  p == if change > 0.0 then PosInf else if change < 0.0 then NegInf else NaN)
  {
    hide Divide;
    DivideIs((Amount(curr, c) - Amount(prev, c)) * 100.0, Amount(curr, c));
  }

  /** The percentage has the sign of the change exactly when the current amount
      is not negative, or nothing changed. */
  lemma PercentageSign(curr: real, prev: real)
    ensures var p := Divide((curr - prev) * 100.0, curr);
            ((Moved(p, true) <==> curr > prev) && (Moved(p, false) <==> curr < prev))
            <==> (curr >= 0.0 || curr == prev)
  {
  }

  ghost predicate Truthful(curr: CostRange, prev: CostRange, c: Column) {
    var p := Percentage(Subtract(curr, prev).diffPercentage, c);
    && (Moved(p, true) <==> Amount(curr, c) > Amount(prev, c))
    && (Moved(p, false) <==> Amount(curr, c) < Amount(prev, c))
  }

  /** The report tells every change truthfully exactly when no current amount
      that differs from the previous one is negative. */
  lemma TruthfulIff(curr: CostRange, prev: CostRange)
    ensures (forall c :: Truthful(curr, prev, c))
            <==> (forall c :: Amount(curr, c) >= 0.0 || Amount(curr, c) == Amount(prev, c))
  {
    forall c
      ensures Truthful(curr, prev, c) <==> (Amount(curr, c) >= 0.0 || Amount(curr, c) == Amount(prev, c))
    {
      PercentageSign(Amount(curr, c), Amount(prev, c));
    }
  }

  /** The largest percentage, as the source's chain of comparisons finds it. */
  method MaxPercentage(p: Percentages) returns (max: Float)
    ensures max.NaN? <==> p.minRequested.NaN?
    ensures !max.NaN? ==> (exists c :: max == Percentage(p, c)) && forall c :: !Less(max, Percentage(p, c))
  {
    max := p.minRequested;
    if Less(max, p.maxRequested) {
      max := p.maxRequested;
    }
    if Less(max, p.hpaBuffer) {
      max := p.hpaBuffer;
    }
    if Less(max, p.minLimited) {
      max := p.minLimited;
    }
    if Less(max, p.maxLimited) {
      max := p.maxLimited;
    }
    assert Percentage(p, MinRequested) == p.minRequested && Percentage(p, HpaBuffer) == p.hpaBuffer;
    assert Percentage(p, MaxRequested) == p.maxRequested && Percentage(p, MinLimited) == p.minLimited;
    assert Percentage(p, MaxLimited) == p.maxLimited;
  }

  /** So the reported maximum is a number or an infinity unless the minimum
      requested cost is zero both before and after. */
  lemma MaxIsNaNIffNothingRequested(curr: CostRange, prev: CostRange)
    ensures Subtract(curr, prev).diffPercentage.minRequested.NaN?
            <==> curr.minRequested == 0.0 && prev.minRequested == 0.0
  {
  }
}
