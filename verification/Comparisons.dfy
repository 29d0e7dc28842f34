/** The report on two sets of documents. */
module Comparisons {
  import opened Costs
  import opened Workloads
  import opened Defaults
  import opened Loading
  import opened Estimates
  import opened Envelopes
  import opened Diff
  import opened Summaries

  function MonthlyTotalOf(docs: seq<Document>, conf: Config, p: Prices): CostRange {
    Sum("MonthlyTotal", Estimate(LoadAll(docs, conf), p))
  }

  lemma EnvelopeNonNegative(c: CostRange, column: Column)
    requires c.InEnvelope()
    ensures Amount(c, column) >= 0.0
  {
  }

  /** For sound current documents the report on the two monthly totals is true,
      whatever the previous documents are. */
  lemma ReportOnDocumentsIsTruthful(docs: seq<Document>, previous: seq<Document>, conf: Config, p: Prices)
    requires NonNegativePrices(p) && SoundConfig(conf) && forall d :: d in docs ==> SoundDocument(d)
    ensures var (curr, prev) := (MonthlyTotalOf(docs, conf, p), MonthlyTotalOf(previous, conf, p));
            var d := Subtract(curr, prev);
            var (up, down) := (Listed(d.diffPercentage, true), Listed(d.diffPercentage, false));
            && (forall c :: Header(c) in up <==> Amount(curr, c) > Amount(prev, c))
            && (forall c :: Header(c) in down <==> Amount(curr, c) < Amount(prev, c))
            && (Summary(up, down) == NO_CHANGE <==> forall c :: Amount(curr, c) == Amount(prev, c))
            && TellsChanges(Summary(up, down), curr, prev)
            && prev.Add(d.diffValue) == curr
  {
    hide *;
    var curr, prev := MonthlyTotalOf(docs, conf, p), MonthlyTotalOf(previous, conf, p);
    TotalInEnvelope(docs, conf, p);
    TotalLabel(docs, conf, p);
    TotalLabel(previous, conf, p);
    forall c ensures Amount(curr, c) >= 0.0 {
      EnvelopeNonNegative(curr, c);
    }
    DiffReportIsTruthful(curr, prev);
  }

  lemma TotalInEnvelope(docs: seq<Document>, conf: Config, p: Prices)
    requires NonNegativePrices(p) && SoundConfig(conf) && forall d :: d in docs ==> SoundDocument(d)
    ensures MonthlyTotalOf(docs, conf, p).InEnvelope()
  {
    hide Estimate, LoadAll, CostRange.InEnvelope;
    DocumentsInEnvelope(docs, conf, p);
  }

  lemma TotalLabel(docs: seq<Document>, conf: Config, p: Prices)
    ensures MonthlyTotalOf(docs, conf, p).kind == "MonthlyTotal"
  {
    hide Estimate, LoadAll;
    SumKind("MonthlyTotal", "MonthlyTotal", Estimate(LoadAll(docs, conf), p));
  }
}
