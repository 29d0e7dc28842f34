/** Picking the three prices out of the stream of all SKUs. */
module PriceScan {
  import opened Collections
  import opened Workloads
  import opened Defaults

  /** A unit price in units and thousand-millionths, and what it is the price of. */
  datatype PricingInfo = PricingInfo(usageUnit: string, units: int, nanos: int)

  /** A SKU with its first pricing info. */
  datatype Sku = Sku(description: string, serviceRegions: seq<string>, pricingInfo: PricingInfo)

  /** What the iterator yields before it is done. */
  datatype Next = Got(sku: Sku) | Failed

  datatype Found = Found(cpu: Option<Sku>, memory: Option<Sku>, disk: Option<Sku>) {
    predicate Complete() {
      cpu.Some? && memory.Some? && disk.Some?
    }
  }

  datatype Outcome = Catalog(prices: Prices) | CouldNotFindAll | IterationError | UnitNotImplemented

  /** An unknown family has the empty prefix. */
  function CpuPrefix(family: string): string {
    if family == "N1" then "N1 Predefined Instance Core"
    else if family == "N2" then "N2 Instance Core"
    else if family == "E2" then "E2 Instance Core"
    else if family == "N2D" then "N2D AMD Custom Instance Core"
    else ""
  }

  function MemoryPrefix(family: string): string {
    if family == "N1" then "N1 Predefined Instance Ram"
    else if family == "N2" then "N2 Instance Ram"
    else if family == "E2" then "E2 Instance Ram"
    else if family == "N2D" then "N2D AMD Instance Ram"
    else ""
  }

  const PD_STANDARD_PREFIX := "Regional Storage PD Capacity"

  predicate Known(family: string) {
    family == "N1" || family == "N2" || family == "E2" || family == "N2D"
  }

  /** Equality up to case: `fold` takes a character to the representative of its
      simple case folding. */
  predicate EqualFold(a: string, b: string, fold: char -> char) {
    |a| == |b| && forall i :: 0 <= i < |a| ==> fold(a[i]) == fold(b[i])
  }

  lemma FoldedAlike(a: string, b: string, fold: char -> char)
    ensures EqualFold(a, b, fold) <==> Map(a, fold) == Map(b, fold)
  {
    if Map(a, fold) == Map(b, fold) {
      assert |a| == |Map(a, fold)| == |Map(b, fold)| == |b|;
      assert forall i :: 0 <= i < |a| ==> Map(a, fold)[i] == fold(a[i]) && Map(b, fold)[i] == fold(b[i]);
    }
  }

  method Contains(items: seq<string>, s: string, fold: char -> char) returns (found: bool)
    ensures found <==> Serves(items, s, fold)
  {
    for i := 0 to |items|
      invariant forall k :: 0 <= k < i ==> !EqualFold(items[k], s, fold)
    {
      if EqualFold(items[i], s, fold) {
        return true;
      }
    }
    return false;
  }

  predicate Serves(items: seq<string>, s: string, fold: char -> char) {
    exists k :: 0 <= k < |items| && EqualFold(items[k], s, fold)
  }

  predicate Matches(sku: Sku, prefix: string, region: string, fold: char -> char) {
    prefix <= sku.description && Serves(sku.serviceRegions, region, fold)
  }

  method SkuMatcher(sku: Sku, prefix: string, conf: ResourceConfig, fold: char -> char) returns (matches: bool)
    ensures matches <==> Matches(sku, prefix, conf.region, fold)
  {
    if prefix <= sku.description {
      matches := Contains(sku.serviceRegions, conf.region, fold);
    } else {
      matches := false;
    }
  }

  /** A SKU fills at most one of the empty places, CPU before memory before disk. */
  function Observe(f: Found, sku: Sku, conf: ResourceConfig, fold: char -> char): Found {
    if f.cpu.None? && Matches(sku, CpuPrefix(conf.machineFamily), conf.region, fold) then f.(cpu := Some(sku))
    else if f.memory.None? && Matches(sku, MemoryPrefix(conf.machineFamily), conf.region, fold)
    then f.(memory := Some(sku))
    else if f.disk.None? && Matches(sku, PD_STANDARD_PREFIX, conf.region, fold) then f.(disk := Some(sku))
    else f
  }

  function Scan(skus: seq<Sku>, conf: ResourceConfig, fold: char -> char): Found {
    if skus == [] then Found(None, None, None) else Observe(Scan(DropLast(skus), conf, fold), Last(skus), conf, fold)
  }

  /** The SKUs the iterator yields before it fails. */
  function BeforeError(stream: seq<Next>): (skus: seq<Sku>)
    ensures |skus| <= |stream|
    ensures forall k :: 0 <= k < |skus| ==> stream[k] == Got(skus[k])
    ensures |skus| < |stream| ==> stream[|skus|].Failed?
  {
    if stream == [] || stream[0].Failed? then [] else [stream[0].sku] + BeforeError(stream[1..])
  }

  lemma {:induction false} ScanKeepsFound(skus: seq<Sku>, n: nat, conf: ResourceConfig, fold: char -> char)
    requires n <= |skus| && Scan(skus[..n], conf, fold).Complete()
    ensures Scan(skus, conf, fold) == Scan(skus[..n], conf, fold)
  {
    if n == |skus| {
      assert skus[..n] == skus;
    } else {
      assert DropLast(skus)[..n] == skus[..n];
      ScanKeepsFound(DropLast(skus), n, conf, fold);
    }
  }

  // ----- Monthly prices -----

  const HOURS_A_MONTH := 24.0 * 31.0
  const BYTES_A_GIB := 1073741824.0

  function UnitPrice(pi: PricingInfo): real {
    pi.units as real + pi.nanos as real / 1000000000.0
  }

  /** The price of one core or one byte for a month, or none for an unknown unit. */
  function MonthlyPrice(pi: PricingInfo): Option<real> {
    if pi.usageUnit == "h" then Some(UnitPrice(pi) * HOURS_A_MONTH)
    else if pi.usageUnit == "GiBy.h" then Some(UnitPrice(pi) / BYTES_A_GIB * HOURS_A_MONTH)
    else if pi.usageUnit == "GiBy.mo" then Some(UnitPrice(pi) / BYTES_A_GIB)
    else None
  }

  /** `price` is the monthly price that the unit price amounts to: of a core by the
      hour, of a byte by the hour, or of a byte by the month; 744 hours are a month. */
  predicate PricedAt(pi: PricingInfo, price: real) {
    var unitPrice := pi.units as real + pi.nanos as real / 1000000000.0;
    || (pi.usageUnit == "h" && price == 744.0 * unitPrice)
    || (pi.usageUnit == "GiBy.h" && 1073741824.0 * price == 744.0 * unitPrice)
    || (pi.usageUnit == "GiBy.mo" && 1073741824.0 * price == unitPrice)
  }

  lemma MonthlyPriceIs(pi: PricingInfo, price: real)
    ensures MonthlyPrice(pi) == Some(price) <==> PricedAt(pi, price)
  {
  }

  method CalculateMonthlyPrice(pi: PricingInfo) returns (price: Option<real>)
    ensures price == MonthlyPrice(pi)
    ensures price.Some? ==> PricedAt(pi, price.value)
    ensures price.None? <==> pi.usageUnit != "h" && pi.usageUnit != "GiBy.h" && pi.usageUnit != "GiBy.mo"
  {
    var unit := pi.usageUnit;
    if unit == "h" {
      var hourlyPrice := pi.units as real + pi.nanos as real / 1000000000.0;
      price := Some(hourlyPrice * 24.0 * 31.0);
    } else if unit == "GiBy.h" {
      var hourlyPrice := (pi.units as real + pi.nanos as real / 1000000000.0) / (1024.0 * 1024.0 * 1024.0);
      price := Some(hourlyPrice * 24.0 * 31.0);
    } else if unit == "GiBy.mo" {
      var monthlyPrice := (pi.units as real + pi.nanos as real / 1000000000.0) / (1024.0 * 1024.0 * 1024.0);
      price := Some(monthlyPrice);
    } else {
      price := None;
    }
  }

  function Priced(f: Found): Outcome
    requires f.Complete()
  {
    var cpu, memory := MonthlyPrice(f.cpu.value.pricingInfo), MonthlyPrice(f.memory.value.pricingInfo);
    var disk := MonthlyPrice(f.disk.value.pricingInfo);
    if cpu.Some? && memory.Some? && disk.Some? then Catalog(Prices(cpu.value, memory.value, disk.value))
    else UnitNotImplemented
  }

  /** A negative price needs a negative unit price. */
  lemma CatalogNonNegative(f: Found)
    requires f.Complete() && Priced(f).Catalog?
    ensures NonNegativePrices(Priced(f).prices)
            <==> && UnitPrice(f.cpu.value.pricingInfo) >= 0.0 && UnitPrice(f.memory.value.pricingInfo) >= 0.0
                 && UnitPrice(f.disk.value.pricingInfo) >= 0.0
  {
  }

  /** Each price belongs to the SKU of its own category. */
  lemma PricesBelong(f: Found)
    requires f.Complete() && Priced(f).Catalog?
    ensures var prices := Priced(f).prices;
            && PricedAt(f.cpu.value.pricingInfo, prices.cpu)
            && PricedAt(f.memory.value.pricingInfo, prices.memory)
            && PricedAt(f.disk.value.pricingInfo, prices.pdStandard)
  {
    var prices := Priced(f).prices;
    MonthlyPriceIs(f.cpu.value.pricingInfo, prices.cpu);
    MonthlyPriceIs(f.memory.value.pricingInfo, prices.memory);
    MonthlyPriceIs(f.disk.value.pricingInfo, prices.pdStandard);
  }

  /** Another unit price of the memory SKU changes the price of memory, and no other. */
  lemma MemoryPriceAlone(f: Found, pi: PricingInfo)
    requires f.Complete() && Priced(f).Catalog? && pi.usageUnit == f.memory.value.pricingInfo.usageUnit
    ensures var other := Priced(f.(memory := Some(f.memory.value.(pricingInfo := pi))));
            && other.Catalog?
            && other.prices.cpu == Priced(f).prices.cpu && other.prices.pdStandard == Priced(f).prices.pdStandard
            && (other.prices.memory == Priced(f).prices.memory
                <==> UnitPrice(pi) == UnitPrice(f.memory.value.pricingInfo))
  {
  }

  method PriceFound(f: Found) returns (outcome: Outcome)
    requires f.Complete()
    ensures outcome == Priced(f)
  {
    var cpuPrice := CalculateMonthlyPrice(f.cpu.value.pricingInfo);
    if cpuPrice.None? {
      return UnitNotImplemented;
    }
    var memoryPrice := CalculateMonthlyPrice(f.memory.value.pricingInfo);
    if memoryPrice.None? {
      return UnitNotImplemented;
    }
    var pdStandardPrice := CalculateMonthlyPrice(f.disk.value.pricingInfo);
    if pdStandardPrice.None? {
      return UnitNotImplemented;
    }
    outcome := Catalog(Prices(cpuPrice.value, memoryPrice.value, pdStandardPrice.value));
  }

  /** The first SKU of a stream with a prefix, served in the region. */
  ghost predicate FirstWith(skus: seq<Sku>, i: int, prefix: string, region: string, fold: char -> char) {
    && 0 <= i < |skus| && prefix <= skus[i].description && Serves(skus[i].serviceRegions, region, fold)
    && forall k :: 0 <= k < i ==> !(prefix <= skus[k].description && Serves(skus[k].serviceRegions, region, fold))
  }

  /** `price` is the price of the first SKU with the prefix. */
  ghost predicate PriceOfFirst(skus: seq<Sku>, prefix: string, price: real, region: string, fold: char -> char) {
    exists i :: FirstWith(skus, i, prefix, region, fold) && PricedAt(skus[i].pricingInfo, price)
  }

  /** Stops early once all three are found; an error after that goes unseen. For
      a known family the prices are those of the first SKU of each category. */
  method RetrievePrices(stream: seq<Next>, conf: ResourceConfig, fold: char -> char) returns (outcome: Outcome)
    ensures Known(conf.machineFamily) && outcome.Catalog? ==>
              var (skus, prices) := (BeforeError(stream), outcome.prices);
              && PriceOfFirst(skus, CpuPrefix(conf.machineFamily), prices.cpu, conf.region, fold)
              && PriceOfFirst(skus, MemoryPrefix(conf.machineFamily), prices.memory, conf.region, fold)
              && PriceOfFirst(skus, PD_STANDARD_PREFIX, prices.pdStandard, conf.region, fold)
    ensures var found := Scan(BeforeError(stream), conf, fold);
            outcome == if found.Complete() then Priced(found)
                       else if |BeforeError(stream)| < |stream| then IterationError
                       else CouldNotFindAll
  {
    ghost var skus := BeforeError(stream);
    var found := Found(None, None, None);
    var i := 0;
    while i < |stream| && !found.Complete()
      invariant 0 <= i <= |skus|
      invariant found == Scan(skus[..i], conf, fold)
    {
      if stream[i].Failed? {
        assert skus[..i] == skus;
        return IterationError;
      }
      assert DropLast(skus[..i + 1]) == skus[..i];
      var sku := stream[i].sku;
      var cpu := SkuMatcher(sku, CpuPrefix(conf.machineFamily), conf, fold);
      var memory := SkuMatcher(sku, MemoryPrefix(conf.machineFamily), conf, fold);
      var disk := SkuMatcher(sku, PD_STANDARD_PREFIX, conf, fold);
      if found.cpu.None? && cpu {
        found := found.(cpu := Some(sku));
      } else if found.memory.None? && memory {
        found := found.(memory := Some(sku));
      } else if found.disk.None? && disk {
        found := found.(disk := Some(sku));
      }
      i := i + 1;
    }
    if found.Complete() {
      ScanKeepsFound(skus, i, conf, fold);
      outcome := PriceFound(found);
      if Known(conf.machineFamily) && outcome.Catalog? {
        PricesOfFirsts(skus, conf, fold);
      }
      return;
    }
    assert skus[..i] == skus;
    return CouldNotFindAll;
  }

  // ----- What the scan finds -----

  /** The first SKU of a category. */
  function FirstMatch(skus: seq<Sku>, prefix: string, region: string, fold: char -> char): Option<Sku> {
    if skus == [] then None
    else if Matches(skus[0], prefix, region, fold) then Some(skus[0])
    else FirstMatch(skus[1..], prefix, region, fold)
  }

  function FirstMatches(skus: seq<Sku>, conf: ResourceConfig, fold: char -> char): Found {
    Found(FirstMatch(skus, CpuPrefix(conf.machineFamily), conf.region, fold),
          FirstMatch(skus, MemoryPrefix(conf.machineFamily), conf.region, fold),
          FirstMatch(skus, PD_STANDARD_PREFIX, conf.region, fold))
  }

  lemma {:induction false} FirstMatchAppend(skus: seq<Sku>, sku: Sku, prefix: string, region: string,
                                            fold: char -> char)
    ensures FirstMatch(skus + [sku], prefix, region, fold)
         == if FirstMatch(skus, prefix, region, fold).Some? then FirstMatch(skus, prefix, region, fold)
            else if Matches(sku, prefix, region, fold) then Some(sku) else None
  {
    if skus != [] {
      assert (skus + [sku])[1..] == skus[1..] + [sku];
      FirstMatchAppend(skus[1..], sku, prefix, region, fold);
    }
  }

  /** The place and the two letters by which two prefixes differ. */
  lemma Differ(p: string, q: string, i: nat, description: string)
    requires i < |p| && i < |q| && p[i] != q[i]
    ensures !(p <= description && q <= description)
  {
  }

  /** A prefix names its family first and its resource last: "Core", "Ram" or "Capacity". */
  lemma PrefixesName(family: string)
    requires Known(family)
    ensures family <= CpuPrefix(family) && family <= MemoryPrefix(family)
    ensures Last(CpuPrefix(family)) == 'e' && Last(MemoryPrefix(family)) == 'm' && Last(PD_STANDARD_PREFIX) == 'y'
  {
  }

  /** No description of a known family carries two of the three prefixes. */
  lemma OneCategory(family: string, description: string)
    requires Known(family)
    ensures !(CpuPrefix(family) <= description && MemoryPrefix(family) <= description)
    ensures !(CpuPrefix(family) <= description && PD_STANDARD_PREFIX <= description)
    ensures !(MemoryPrefix(family) <= description && PD_STANDARD_PREFIX <= description)
  {
    var place := if family == "N1" then 23 else if family == "N2D" then 8 else 12;
    assert "N1 Predefined Instance Core"[23] == 'C' && "N1 Predefined Instance Ram"[23] == 'R';
    assert "N2 Instance Core"[12] == 'C' && "N2 Instance Ram"[12] == 'R';
    assert "E2 Instance Core"[12] == 'C' && "E2 Instance Ram"[12] == 'R';
    assert "N2D AMD Custom Instance Core"[8] == 'C' && "N2D AMD Instance Ram"[8] == 'I';
    Differ(CpuPrefix(family), MemoryPrefix(family), place, description);
    Differ(CpuPrefix(family), PD_STANDARD_PREFIX, 0, description);
    Differ(MemoryPrefix(family), PD_STANDARD_PREFIX, 0, description);
  }

  lemma {:induction false} ScanFindsFirst(skus: seq<Sku>, conf: ResourceConfig, fold: char -> char)
    requires Known(conf.machineFamily)
    ensures Scan(skus, conf, fold) == FirstMatches(skus, conf, fold)
  {
    if skus != [] {
      var rest, sku := DropLast(skus), Last(skus);
      ScanFindsFirst(rest, conf, fold);
      SplitLast(skus);
      FirstMatchAppend(rest, sku, CpuPrefix(conf.machineFamily), conf.region, fold);
      FirstMatchAppend(rest, sku, MemoryPrefix(conf.machineFamily), conf.region, fold);
      FirstMatchAppend(rest, sku, PD_STANDARD_PREFIX, conf.region, fold);
      OneCategory(conf.machineFamily, sku.description);
    }
  }

  /** The scan selects the first SKU of each category, for every list of SKUs,
      exactly when the machine family is one of the four known ones. */
  lemma FindsFirstIffKnown(conf: ResourceConfig, fold: char -> char)
    ensures (forall skus :: Scan(skus, conf, fold) == FirstMatches(skus, conf, fold)) <==> Known(conf.machineFamily)
  {
    if Known(conf.machineFamily) {
      forall skus ensures Scan(skus, conf, fold) == FirstMatches(skus, conf, fold) {
        ScanFindsFirst(skus, conf, fold);
      }
    } else {
      var sku := Sku("", [conf.region], PricingInfo("", 0, 0));
      assert EqualFold([conf.region][0], conf.region, fold);
      assert Matches(sku, "", conf.region, fold);
      assert Scan([sku], conf, fold) == Observe(Scan([], conf, fold), sku, conf, fold);
      assert Scan([sku], conf, fold).memory.None? && FirstMatches([sku], conf, fold).memory.Some?;
    }
  }

  /** There is no first match exactly when nothing matches, and nothing before it matches. */
  lemma {:induction false} FirstMatchIsFirst(skus: seq<Sku>, prefix: string, region: string, fold: char -> char)
    ensures var first := FirstMatch(skus, prefix, region, fold);
            if first.None? then forall k :: 0 <= k < |skus| ==> !Matches(skus[k], prefix, region, fold)
            else exists k :: 0 <= k < |skus| && skus[k] == first.value && Matches(skus[k], prefix, region, fold)
                          && forall i :: 0 <= i < k ==> !Matches(skus[i], prefix, region, fold)
  {
    if skus != [] && !Matches(skus[0], prefix, region, fold) {
      FirstMatchIsFirst(skus[1..], prefix, region, fold);
      var rest := FirstMatch(skus[1..], prefix, region, fold);
      if rest.Some? {
        var k :| 0 <= k < |skus[1..]| && skus[1..][k] == rest.value && Matches(skus[1..][k], prefix, region, fold)
              && forall i :: 0 <= i < k ==> !Matches(skus[1..][i], prefix, region, fold);
        assert skus[k + 1] == rest.value;
        assert forall i :: 0 < i < k + 1 ==> skus[i] == skus[1..][i - 1];
      } else {
        assert forall k :: 0 < k < |skus| ==> skus[k] == skus[1..][k - 1];
      }
    }
  }

  ghost predicate SomeMatch(skus: seq<Sku>, prefix: string, region: string, fold: char -> char) {
    exists k :: 0 <= k < |skus| && Matches(skus[k], prefix, region, fold)
  }

  /** For a known family the scan fills every place exactly when every category has a match. */
  lemma FailsExactlyWithoutMatch(skus: seq<Sku>, conf: ResourceConfig, fold: char -> char)
    requires Known(conf.machineFamily)
    ensures Scan(skus, conf, fold).Complete()
            <==> && SomeMatch(skus, CpuPrefix(conf.machineFamily), conf.region, fold)
                 && SomeMatch(skus, MemoryPrefix(conf.machineFamily), conf.region, fold)
                 && SomeMatch(skus, PD_STANDARD_PREFIX, conf.region, fold)
  {
    ScanFindsFirst(skus, conf, fold);
    FirstMatchIsFirst(skus, CpuPrefix(conf.machineFamily), conf.region, fold);
    FirstMatchIsFirst(skus, MemoryPrefix(conf.machineFamily), conf.region, fold);
    FirstMatchIsFirst(skus, PD_STANDARD_PREFIX, conf.region, fold);
  }

  lemma PriceOfFirstMatch(skus: seq<Sku>, prefix: string, price: real, region: string, fold: char -> char)
    requires FirstMatch(skus, prefix, region, fold).Some?
    requires PricedAt(FirstMatch(skus, prefix, region, fold).value.pricingInfo, price)
    ensures PriceOfFirst(skus, prefix, price, region, fold)
  {
    hide PricedAt, Serves;
    FirstMatchIsFirst(skus, prefix, region, fold);
    var first := FirstMatch(skus, prefix, region, fold).value;
    var i :| 0 <= i < |skus| && skus[i] == first && Matches(skus[i], prefix, region, fold)
             && forall k :: 0 <= k < i ==> !Matches(skus[k], prefix, region, fold);
    assert FirstWith(skus, i, prefix, region, fold);
  }

  lemma PricesOfFirsts(skus: seq<Sku>, conf: ResourceConfig, fold: char -> char)
    requires Known(conf.machineFamily) && Scan(skus, conf, fold).Complete() && Priced(Scan(skus, conf, fold)).Catalog?
    ensures var prices := Priced(Scan(skus, conf, fold)).prices;
            && PriceOfFirst(skus, CpuPrefix(conf.machineFamily), prices.cpu, conf.region, fold)
            && PriceOfFirst(skus, MemoryPrefix(conf.machineFamily), prices.memory, conf.region, fold)
            && PriceOfFirst(skus, PD_STANDARD_PREFIX, prices.pdStandard, conf.region, fold)
  {
    hide PricedAt, Scan, Priced, FirstMatch, CpuPrefix, MemoryPrefix, PriceOfFirst;
    ScanFindsFirst(skus, conf, fold);
    PricesBelong(Scan(skus, conf, fold));
    var prices := Priced(Scan(skus, conf, fold)).prices;
    PriceOfFirstMatch(skus, CpuPrefix(conf.machineFamily), prices.cpu, conf.region, fold);
    PriceOfFirstMatch(skus, MemoryPrefix(conf.machineFamily), prices.memory, conf.region, fold);
    PriceOfFirstMatch(skus, PD_STANDARD_PREFIX, prices.pdStandard, conf.region, fold);
  }
}
