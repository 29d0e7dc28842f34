/** Cost ranges and their totals, with exact reals for money. */
module Costs {
  import opened Collections

  datatype CostRange = CostRange(kind: string, minRequested: real, maxRequested: real, hpaBuffer: real,
                                 minLimited: real, maxLimited: real)
  {
    /** Adds column by column and keeps its own kind. */
    function Add(c: CostRange): CostRange {
      CostRange(kind, minRequested + c.minRequested, maxRequested + c.maxRequested,
                hpaBuffer + c.hpaBuffer, minLimited + c.minLimited, maxLimited + c.maxLimited)
    }

    /** Limits bound requests, maxima bound minima, and the buffer at most
        doubles the minimum. */
    ghost predicate InEnvelope() {
      && 0.0 <= minRequested <= maxRequested <= maxLimited
      && minRequested <= minLimited <= maxLimited
      && minRequested <= hpaBuffer <= 2.0 * minRequested
    }
  }

  function Zero(kind: string): CostRange {
    CostRange(kind, 0.0, 0.0, 0.0, 0.0, 0.0)
  }

  function Sum(kind: string, ranges: seq<CostRange>): CostRange {
    if ranges == [] then Zero(kind) else Sum(kind, DropLast(ranges)).Add(Last(ranges))
  }

  method MonthlyTotal(ranges: seq<CostRange>) returns (total: CostRange)
    ensures total == Sum("MonthlyTotal", ranges)
  {
    total := Zero("MonthlyTotal");
    for i := 0 to |ranges|
      invariant total == Sum("MonthlyTotal", ranges[..i])
    {
      assert DropLast(ranges[..i + 1]) == ranges[..i];
      total := total.Add(ranges[i]);
    }
    assert ranges[..|ranges|] == ranges;
  }

  /** The TOTAL row of the cost table, accumulated column by column. */
  method MarkdownTotal(ranges: seq<CostRange>) returns (total: CostRange)
    ensures total == Sum("**TOTAL**", ranges)
  {
    total := Zero("**TOTAL**");
    for i := 0 to |ranges|
      invariant total == Sum("**TOTAL**", ranges[..i])
    {
      assert DropLast(ranges[..i + 1]) == ranges[..i];
      var mr := ranges[i];
      total := total.(minRequested := total.minRequested + mr.minRequested);
      total := total.(hpaBuffer := total.hpaBuffer + mr.hpaBuffer);
      total := total.(maxRequested := total.maxRequested + mr.maxRequested);
      total := total.(minLimited := total.minLimited + mr.minLimited);
      total := total.(maxLimited := total.maxLimited + mr.maxLimited);
    }
    assert ranges[..|ranges|] == ranges;
  }

  /** The sum of one column. */
  function ColumnSum(ranges: seq<CostRange>, column: CostRange -> real): real {
    if ranges == [] then 0.0 else ColumnSum(DropLast(ranges), column) + column(Last(ranges))
  }

  /** Every column is summed by itself. */
  lemma {:induction false} SumByColumn(kind: string, ranges: seq<CostRange>)
    ensures var sum := Sum(kind, ranges);
            && sum.kind == kind
            && sum.minRequested == ColumnSum(ranges, (c: CostRange) => c.minRequested)
            && sum.maxRequested == ColumnSum(ranges, (c: CostRange) => c.maxRequested)
            && sum.hpaBuffer == ColumnSum(ranges, (c: CostRange) => c.hpaBuffer)
            && sum.minLimited == ColumnSum(ranges, (c: CostRange) => c.minLimited)
            && sum.maxLimited == ColumnSum(ranges, (c: CostRange) => c.maxLimited)
  {
    if ranges != [] {
      SumByColumn(kind, DropLast(ranges));
    }
  }

  /** The kind is a label: it has no part in the sum. */
  lemma {:induction false} SumKind(kind: string, other: string, ranges: seq<CostRange>)
    ensures Sum(other, ranges) == Sum(kind, ranges).(kind := other)
  {
    if ranges != [] {
      SumKind(kind, other, DropLast(ranges));
    }
  }

  lemma {:induction false} SumAppend(kind: string, a: seq<CostRange>, b: seq<CostRange>)
    ensures Sum(kind, a + b) == Sum(kind, a).Add(Sum(kind, b))
  {
    if b == [] {
      assert a + b == a;
    } else {
      SumAppend(kind, a, DropLast(b));
      assert DropLast(a + b) == a + DropLast(b);
    }
  }

  lemma SumWithout(kind: string, ranges: seq<CostRange>, i: nat)
    requires i < |ranges|
    ensures Sum(kind, ranges) == Sum(kind, ranges[..i] + ranges[i + 1..]).Add(ranges[i])
  {
    var front, back := ranges[..i], ranges[i + 1..];
    assert ranges == (front + [ranges[i]]) + back;
    SumAppend(kind, front + [ranges[i]], back);
    SumAppend(kind, front, back);
    DropAppended(front, ranges[i]);
  }

  /** The order of the ranges does not matter. */
  lemma {:induction false} SumPermuted(kind: string, a: seq<CostRange>, b: seq<CostRange>)
    requires multiset(a) == multiset(b)
    ensures Sum(kind, a) == Sum(kind, b)
  {
    if a == [] {
      PermutedEmpty(b);
    } else {
      var i := FindInPermutation(a, b);
      SumPermuted(kind, DropLast(a), b[..i] + b[i + 1..]);
      SumWithout(kind, b, i);
    }
  }

  lemma {:induction false} SumKeepsEnvelope(kind: string, ranges: seq<CostRange>)
    requires forall c :: c in ranges ==> c.InEnvelope()
    ensures Sum(kind, ranges).InEnvelope()
  {
    if ranges != [] {
      SumKeepsEnvelope(kind, DropLast(ranges));
      assert Last(ranges).InEnvelope();
    }
  }
}
