/** The cost of one object: containers times replicas times prices. */
module Workloads {
  import opened Collections
  import opened Costs

  datatype Resource = Resource(cpu: int, memory: int, storage: int)

  datatype Container = Container(requests: Resource, limits: Resource)

  /** A horizontal pod autoscaler; one without a name means there is none. */
  datatype HPA = HPA(apiVersionKindName: string, targetRef: string,
                     minReplicas: int, maxReplicas: int, targetCPUPercentage: int)

  const NO_HPA := HPA("", "", 0, 0, 0)

  datatype DaemonSet = DaemonSet(apiVersionKindName: string, nodesCount: int, containers: seq<Container>)

  datatype VolumeClaim = VolumeClaim(apiVersionKindName: string, storageClass: string,
                                     requests: Resource, limits: Resource)

  /** Monthly prices: of a core, of a byte of memory, of a byte of disk. */
  datatype Prices = Prices(cpu: real, memory: real, pdStandard: real)

  const DEPLOYMENT := "Deployment"
  const REPLICA_SET := "ReplicaSet"
  const STATEFUL_SET := "StatefulSet"
  const DAEMON_SET := "DaemonSet"
  const VOLUME_CLAIM := "PersistentVolumeClaim"

  /** What a container requests, or what it is limited to. */
  function Part(c: Container, limited: bool): Resource {
    if limited then c.limits else c.requests
  }

  function MilliCpu(cs: seq<Container>, limited: bool): int {
    if cs == [] then 0 else MilliCpu(DropLast(cs), limited) + Part(Last(cs), limited).cpu
  }

  function Memory(cs: seq<Container>, limited: bool): int {
    if cs == [] then 0 else Memory(DropLast(cs), limited) + Part(Last(cs), limited).memory
  }

  method TotalContainers(cs: seq<Container>) returns (cpuReq: real, cpuLim: real, memReq: real, memLim: real)
    ensures cpuReq == MilliCpu(cs, false) as real / 1000.0 && cpuLim == MilliCpu(cs, true) as real / 1000.0
    ensures memReq == Memory(cs, false) as real && memLim == Memory(cs, true) as real
  {
    cpuReq, cpuLim, memReq, memLim := 0.0, 0.0, 0.0, 0.0;
    for i := 0 to |cs|
      invariant cpuReq == MilliCpu(cs[..i], false) as real && cpuLim == MilliCpu(cs[..i], true) as real
      invariant memReq == Memory(cs[..i], false) as real && memLim == Memory(cs[..i], true) as real
    {
      assert DropLast(cs[..i + 1]) == cs[..i];
      cpuReq := cpuReq + cs[i].requests.cpu as real;
      cpuLim := cpuLim + cs[i].limits.cpu as real;
      memReq := memReq + cs[i].requests.memory as real;
      memLim := memLim + cs[i].limits.memory as real;
    }
    assert cs[..|cs|] == cs;
    cpuReq := cpuReq / 1000.0;
    cpuLim := cpuLim / 1000.0;
  }

  // ----- The cost of an object as replicas times the rate of one replica -----

  /** A product of reals. Proofs that only move products around hide its body. */
  function Times(a: real, b: real): real {
    a * b
  }

  function UnitCost(cores: real, bytes: real, p: Prices): real {
    Times(cores, p.cpu) + Times(bytes, p.memory)
  }

  /** The monthly cost of what one replica requests (is limited to). */
  function Rate(cs: seq<Container>, p: Prices, limited: bool): real {
    UnitCost(MilliCpu(cs, limited) as real / 1000.0, Memory(cs, limited) as real, p)
  }

  function Max(a: real, b: real): real {
    if a < b then b else a
  }

  predicate LargerOf(x: real, a: real, b: real) {
    x >= a && x >= b && (x == a || x == b)
  }

  /** The minimum and maximum number of replicas, and the minimum with its CPU buffer. */
  datatype Scale = Scale(least: real, most: real, buffered: real)

  function Fixed(n: int): Scale {
    Scale(n as real, n as real, n as real)
  }

  function ScaleOf(replicas: int, hpa: HPA): Scale {
    if hpa.apiVersionKindName == "" then Fixed(replicas)
    else Scale(hpa.minReplicas as real, hpa.maxReplicas as real,
               if hpa.targetCPUPercentage > 0
               then Times(2.0 - hpa.targetCPUPercentage as real / 100.0, hpa.minReplicas as real)
               else hpa.minReplicas as real)
  }

  /** A limit below the request costs what the request costs. */
  function CostAt(kind: string, s: Scale, requested: real, limited: real): CostRange {
    CostRange(kind, Times(s.least, requested), Times(s.most, requested), Times(s.buffered, requested),
              Max(Times(s.least, limited), Times(s.least, requested)),
              Max(Times(s.most, limited), Times(s.most, requested)))
  }

  function WorkloadCost(kind: string, cs: seq<Container>, replicas: int, hpa: HPA, p: Prices): CostRange {
    CostAt(kind, ScaleOf(replicas, hpa), Rate(cs, p, false), Rate(cs, p, true))
  }

  function DaemonSetCost(d: DaemonSet, p: Prices): CostRange {
    CostAt(DAEMON_SET, Fixed(d.nodesCount), Rate(d.containers, p, false), Rate(d.containers, p, true))
  }

  function VolumeClaimCost(v: VolumeClaim, p: Prices): CostRange {
    CostAt(VOLUME_CLAIM, Fixed(1), Times(v.requests.storage as real, p.pdStandard),
           Times(v.limits.storage as real, p.pdStandard))
  }

  /** Raises a limit cost below the requested cost to it. */
  method PostProcessCost(c: CostRange) returns (cost: CostRange)
    ensures LargerOf(cost.minLimited, c.minLimited, c.minRequested)
    ensures LargerOf(cost.maxLimited, c.maxLimited, c.maxRequested)
    ensures cost == c.(minLimited := Max(c.minLimited, c.minRequested), maxLimited := Max(c.maxLimited, c.maxRequested))
  {
    cost := c;
    if cost.minLimited < cost.minRequested {
      cost := cost.(minLimited := cost.minRequested);
    }
    if cost.maxLimited < cost.maxRequested {
      cost := cost.(maxLimited := cost.maxRequested);
    }
  }

  lemma Distribute(n: real, cores: real, bytes: real, p: Prices)
    ensures (n * cores * p.cpu) + (n * bytes * p.memory) == Times(n, UnitCost(cores, bytes, p))
  {
  }

  method EstimateCost(kind: string, cs: seq<Container>, replicas: int, hpa: HPA, p: Prices) returns (cost: CostRange)
    ensures cost == WorkloadCost(kind, cs, replicas, hpa, p)
  {
    hide Times, UnitCost;
    var cpuReq, cpuLim, memReq, memLim := TotalContainers(cs);
    if hpa.apiVersionKindName != "" {
      cost := ScaledCost(kind, hpa, cpuReq, cpuLim, memReq, memLim, p);
    } else {
      cost := FixedCost(kind, replicas as real, cpuReq, cpuLim, memReq, memLim, p);
    }
    cost := PostProcessCost(cost);
  }

  /** The cost before the clamp when an autoscaler varies the number of replicas. */
  method ScaledCost(kind: string, hpa: HPA, cpuReq: real, cpuLim: real, memReq: real, memLim: real, p: Prices)
    returns (cost: CostRange)
    requires hpa.apiVersionKindName != ""
    ensures var s, req, lim := ScaleOf(0, hpa), UnitCost(cpuReq, memReq, p), UnitCost(cpuLim, memLim, p);
            cost == CostRange(kind, Times(s.least, req), Times(s.most, req), Times(s.buffered, req),
                              Times(s.least, lim), Times(s.most, lim))
  {
    cost := Zero(kind);
    var minReplicas, maxReplicas := hpa.minReplicas as real, hpa.maxReplicas as real;
    cost := cost.(minRequested := (minReplicas * cpuReq * p.cpu) + (minReplicas * memReq * p.memory));
    cost := cost.(maxRequested := (maxReplicas * cpuReq * p.cpu) + (maxReplicas * memReq * p.memory));
    var cpuBuffer := minReplicas;
    if hpa.targetCPUPercentage > 0 {
      var buff := (100 - hpa.targetCPUPercentage) as real / 100.0;
      cpuBuffer := minReplicas + (buff * minReplicas);
      BufferFactor(hpa.targetCPUPercentage, minReplicas);
    }
    cost := cost.(hpaBuffer := (cpuBuffer * cpuReq * p.cpu) + (cpuBuffer * memReq * p.memory));
    cost := cost.(minLimited := (minReplicas * cpuLim * p.cpu) + (minReplicas * memLim * p.memory));
    cost := cost.(maxLimited := (maxReplicas * cpuLim * p.cpu) + (maxReplicas * memLim * p.memory));
    Distribute(minReplicas, cpuReq, memReq, p);
    Distribute(maxReplicas, cpuReq, memReq, p);
    Distribute(cpuBuffer, cpuReq, memReq, p);
    Distribute(minReplicas, cpuLim, memLim, p);
    Distribute(maxReplicas, cpuLim, memLim, p);
  }

  lemma BufferFactor(target: int, minReplicas: real)
    ensures minReplicas + ((100 - target) as real / 100.0 * minReplicas)
         == Times(2.0 - target as real / 100.0, minReplicas)
  {
  }

  /** The cost before the clamp when the number of replicas does not vary. */
  method FixedCost(kind: string, n: real, cpuReq: real, cpuLim: real, memReq: real, memLim: real, p: Prices)
    returns (cost: CostRange)
    ensures var req, lim := Times(n, UnitCost(cpuReq, memReq, p)), Times(n, UnitCost(cpuLim, memLim, p));
            cost == CostRange(kind, req, req, req, lim, lim)
  {
    cost := Zero(kind);
    cost := cost.(minRequested := (n * cpuReq * p.cpu) + (n * memReq * p.memory));
    cost := cost.(maxRequested := cost.minRequested);
    cost := cost.(hpaBuffer := cost.minRequested);
    cost := cost.(minLimited := (n * cpuLim * p.cpu) + (n * memLim * p.memory));
    cost := cost.(maxLimited := cost.minLimited);
    Distribute(n, cpuReq, memReq, p);
    Distribute(n, cpuLim, memLim, p);
  }

  /** A DaemonSet costs what a workload with one replica for each node costs. */
  method EstimateDaemonSet(d: DaemonSet, p: Prices) returns (cost: CostRange)
    ensures cost == DaemonSetCost(d, p) == WorkloadCost(DAEMON_SET, d.containers, d.nodesCount, NO_HPA, p)
  {
    hide Times, UnitCost;
    var cpuReq, cpuLim, memReq, memLim := TotalContainers(d.containers);
    cost := FixedCost(DAEMON_SET, d.nodesCount as real, cpuReq, cpuLim, memReq, memLim, p);
    cost := PostProcessCost(cost);
  }

  method EstimateVolumeClaim(v: VolumeClaim, p: Prices) returns (cost: CostRange)
    ensures cost == VolumeClaimCost(v, p)
    ensures cost.kind == "PersistentVolumeClaim"
    ensures cost.minRequested == v.requests.storage as real * p.pdStandard
    ensures cost.minRequested == cost.maxRequested == cost.hpaBuffer && cost.minLimited == cost.maxLimited
    ensures LargerOf(cost.minLimited, cost.minRequested, v.limits.storage as real * p.pdStandard)
  {
    cost := Zero(VOLUME_CLAIM);
    cost := cost.(minRequested := v.requests.storage as real * p.pdStandard);
    cost := cost.(maxRequested := cost.minRequested);
    cost := cost.(hpaBuffer := cost.minRequested);
    cost := cost.(minLimited := v.limits.storage as real * p.pdStandard);
    cost := cost.(maxLimited := cost.minLimited);
    cost := PostProcessCost(cost);
  }

  // ----- What the columns mean -----

  /** The containers with their limits as requests. */
  function LimitsRequested(cs: seq<Container>): seq<Container> {
    Map(cs, (c: Container) => c.(requests := c.limits))
  }

  lemma {:induction false} LimitedTotals(cs: seq<Container>)
    ensures MilliCpu(LimitsRequested(cs), false) == MilliCpu(cs, true)
    ensures Memory(LimitsRequested(cs), false) == Memory(cs, true)
  {
    if cs != [] {
      LimitedTotals(DropLast(cs));
      assert DropLast(LimitsRequested(cs)) == LimitsRequested(DropLast(cs));
    }
  }

  lemma BufferOf(minReplicas: real, target: real, rate: real)
    ensures 100.0 * (Times(Times(2.0 - target / 100.0, minReplicas), rate) - Times(minReplicas, rate))
         == (100.0 - target) * Times(minReplicas, rate)
  {
    var cost := minReplicas * rate;
    assert (2.0 - target / 100.0) * minReplicas * rate == (2.0 - target / 100.0) * cost;
  }

  /** An autoscaler varies the replicas: the buffer adds to the minimum what the
      CPU target leaves free, and nothing without a target; the maximum is the
      minimum at the maximal number of replicas. */
  lemma ScaledColumns(kind: string, cs: seq<Container>, replicas: int, hpa: HPA, p: Prices)
    requires hpa.apiVersionKindName != ""
    ensures var (cost, t) := (WorkloadCost(kind, cs, replicas, hpa, p), hpa.targetCPUPercentage);
            && (t <= 0 ==> cost.hpaBuffer == cost.minRequested)
            && (t > 0 ==>
                  100.0 * (cost.hpaBuffer - cost.minRequested) == (100 - t) as real * cost.minRequested)
            && cost.maxRequested
                 == WorkloadCost(kind, cs, replicas, hpa.(minReplicas := hpa.maxReplicas), p).minRequested
            && cost.minRequested == WorkloadCost(kind, cs, hpa.minReplicas, NO_HPA, p).minRequested
  {
    hide Times, Rate;
    BufferOf(hpa.minReplicas as real, hpa.targetCPUPercentage as real, Rate(cs, p, false));
  }

  /** Without an autoscaler nothing varies. */
  lemma FixedColumns(kind: string, cs: seq<Container>, replicas: int, hpa: HPA, p: Prices)
    requires hpa.apiVersionKindName == ""
    ensures var cost := WorkloadCost(kind, cs, replicas, hpa, p);
            && cost.minRequested == cost.maxRequested == cost.hpaBuffer
            && cost.minLimited == cost.maxLimited
  {
  }

  /** A limited column is the larger of the requested one and of what that one
      would be were the limits requested. */
  lemma LimitedColumns(kind: string, cs: seq<Container>, replicas: int, hpa: HPA, p: Prices)
    ensures var cost := WorkloadCost(kind, cs, replicas, hpa, p);
            var asRequests := WorkloadCost(kind, LimitsRequested(cs), replicas, hpa, p);
            && cost.kind == kind
            && LargerOf(cost.minLimited, cost.minRequested, asRequests.minRequested)
            && LargerOf(cost.maxLimited, cost.maxRequested, asRequests.maxRequested)
  {
    LimitedTotals(cs);
  }

  /** One container costs its cores at the price of a core and its bytes at the
      price of a byte for each replica; no container costs nothing. */
  lemma OneContainerCost(kind: string, c: Container, replicas: int, p: Prices)
    ensures WorkloadCost(kind, [c], replicas, NO_HPA, p).minRequested
         == replicas as real * (c.requests.cpu as real / 1000.0 * p.cpu + c.requests.memory as real * p.memory)
    ensures WorkloadCost(kind, [], replicas, NO_HPA, p).minRequested == 0.0
  {
    assert DropLast([c]) == [];
    assert MilliCpu([c], false) == c.requests.cpu && Memory([c], false) == c.requests.memory;
  }

  // ----- The envelope -----

  predicate NonNegativePrices(p: Prices) {
    p.cpu >= 0.0 && p.memory >= 0.0 && p.pdStandard >= 0.0
  }

  /** The container requests no negative amount; its limits may be anything. */
  predicate NonNegative(c: Container) {
    c.requests.cpu >= 0 && c.requests.memory >= 0
  }

  lemma {:induction false} TotalsNonNegative(cs: seq<Container>)
    requires forall c :: c in cs ==> NonNegative(c)
    ensures MilliCpu(cs, false) >= 0 && Memory(cs, false) >= 0
  {
    if cs != [] {
      assert NonNegative(Last(cs));
      TotalsNonNegative(DropLast(cs));
    }
  }

  lemma RateNonNegative(cs: seq<Container>, p: Prices)
    requires NonNegativePrices(p) && forall c :: c in cs ==> NonNegative(c)
    ensures Rate(cs, p, false) >= 0.0
  {
    TotalsNonNegative(cs);
    Monotone(0.0, MilliCpu(cs, false) as real / 1000.0, p.cpu);
    Monotone(0.0, Memory(cs, false) as real, p.memory);
  }

  lemma TimesConstants(a: real, r: real)
    ensures Times(0.0, r) == 0.0 && Times(1.0, r) == r && Times(2.0 * a, r) == 2.0 * Times(a, r)
  {
  }

  lemma Monotone(a: real, b: real, r: real)
    requires a <= b && r >= 0.0
    ensures Times(a, r) <= Times(b, r)
  {
  }

  lemma ClampedInEnvelope(kind: string, minReq: real, maxReq: real, buffer: real, minLim: real, maxLim: real)
    requires 0.0 <= minReq <= maxReq && minReq <= buffer <= 2.0 * minReq && minLim <= maxLim
    ensures CostRange(kind, minReq, maxReq, buffer, Max(minLim, minReq), Max(maxLim, maxReq)).InEnvelope()
  {
  }

  lemma StrictlyMonotone(a: real, b: real, r: real)
    requires a < b && r > 0.0
    ensures Times(a, r) < Times(b, r)
  {
  }

  /** A limit rate below zero is clamped away. */
  lemma NegativeLimitIsClamped(kind: string, s: Scale, requested: real, limited: real)
    requires 0.0 <= s.least && 0.0 <= s.most && requested >= 0.0
    ensures CostAt(kind, s, requested, limited) == CostAt(kind, s, requested, Max(0.0, limited))
  {
  }

  /** Whatever the limits are: the clamp keeps the envelope. */
  lemma CostInEnvelope(kind: string, s: Scale, requested: real, limited: real)
    requires 0.0 <= s.least <= s.most && s.least <= s.buffered <= 2.0 * s.least
    requires requested >= 0.0
    ensures CostAt(kind, s, requested, limited).InEnvelope()
  {
    hide Times;
    var lim := Max(0.0, limited);
    NegativeLimitIsClamped(kind, s, requested, limited);
    TimesConstants(s.least, requested);
    Monotone(0.0, s.least, requested);
    Monotone(s.least, s.most, requested);
    Monotone(s.least, s.most, lim);
    Monotone(s.least, s.buffered, requested);
    Monotone(s.buffered, 2.0 * s.least, requested);
    ClampedInEnvelope(kind, Times(s.least, requested), Times(s.most, requested), Times(s.buffered, requested),
                      Times(s.least, lim), Times(s.most, lim));
  }

  /** What the estimate needs of an autoscaler; Kubernetes promises more. */
  predicate SoundScale(replicas: int, hpa: HPA) {
    if hpa.apiVersionKindName == "" then replicas >= 0
    else
      && 0 <= hpa.minReplicas <= hpa.maxReplicas
      && (hpa.minReplicas == 0 || hpa.targetCPUPercentage <= 100)
  }

  lemma ScaleBounds(replicas: int, hpa: HPA)
    requires SoundScale(replicas, hpa)
    ensures var s := ScaleOf(replicas, hpa);
            0.0 <= s.least <= s.most && s.least <= s.buffered <= 2.0 * s.least
  {
  }

  lemma WorkloadInEnvelope(kind: string, cs: seq<Container>, replicas: int, hpa: HPA, p: Prices)
    requires NonNegativePrices(p) && (forall c :: c in cs ==> NonNegative(c)) && SoundScale(replicas, hpa)
    ensures WorkloadCost(kind, cs, replicas, hpa, p).InEnvelope()
  {
    RateNonNegative(cs, p);
    ScaleBounds(replicas, hpa);
    CostInEnvelope(kind, ScaleOf(replicas, hpa), Rate(cs, p, false), Rate(cs, p, true));
  }

  lemma DaemonSetInEnvelope(d: DaemonSet, p: Prices)
    requires NonNegativePrices(p) && (forall c :: c in d.containers ==> NonNegative(c)) && d.nodesCount >= 0
    ensures DaemonSetCost(d, p).InEnvelope()
  {
    RateNonNegative(d.containers, p);
    CostInEnvelope(DAEMON_SET, Fixed(d.nodesCount), Rate(d.containers, p, false), Rate(d.containers, p, true));
  }

  lemma VolumeClaimInEnvelope(v: VolumeClaim, p: Prices)
    requires NonNegativePrices(p) && v.requests.storage >= 0
    ensures VolumeClaimCost(v, p).InEnvelope()
  {
  }

  /** A workload that requests anything at all is in the envelope exactly when
      its replicas, or the bounds of its autoscaler, are sound. */
  lemma EnvelopeIffScaleSound(kind: string, cs: seq<Container>, replicas: int, hpa: HPA, p: Prices)
    requires Rate(cs, p, false) > 0.0
    ensures WorkloadCost(kind, cs, replicas, hpa, p).InEnvelope() <==> SoundScale(replicas, hpa)
  {
    hide Times;
    var s, req, lim := ScaleOf(replicas, hpa), Rate(cs, p, false), Rate(cs, p, true);
    TimesConstants(1.0, req);
    if SoundScale(replicas, hpa) {
      ScaleBounds(replicas, hpa);
      CostInEnvelope(kind, s, req, lim);
    } else if s.least < 0.0 {
      StrictlyMonotone(s.least, 0.0, req);
    } else if s.most < s.least {
      StrictlyMonotone(s.most, s.least, req);
    } else {
      BufferBelow(hpa);
      StrictlyMonotone(s.buffered, s.least, req);
    }
  }

  /** A target above 100 percent makes the buffered scale smaller than the least. */
  lemma BufferBelow(hpa: HPA)
    requires hpa.apiVersionKindName != "" && hpa.minReplicas > 0 && hpa.targetCPUPercentage > 100
    ensures ScaleOf(0, hpa).buffered < ScaleOf(0, hpa).least
  {
    var t := hpa.targetCPUPercentage as real / 100.0;
    TimesConstants(1.0, hpa.minReplicas as real);
    StrictlyMonotone(2.0 - t, 1.0, hpa.minReplicas as real);
  }

  // ----- Merging two workloads -----

  lemma {:induction false} TotalsAppend(a: seq<Container>, b: seq<Container>, limited: bool)
    ensures MilliCpu(a + b, limited) == MilliCpu(a, limited) + MilliCpu(b, limited)
    ensures Memory(a + b, limited) == Memory(a, limited) + Memory(b, limited)
  {
    if b == [] {
      assert a + b == a;
    } else {
      TotalsAppend(a, DropLast(b), limited);
      assert DropLast(a + b) == a + DropLast(b);
    }
  }

  lemma RateAppend(a: seq<Container>, b: seq<Container>, p: Prices, limited: bool)
    ensures Rate(a + b, p, limited) == Rate(a, p, limited) + Rate(b, p, limited)
  {
    TotalsAppend(a, b, limited);
    SpreadLeft(MilliCpu(a, limited) as real / 1000.0, MilliCpu(b, limited) as real / 1000.0, p.cpu);
    SpreadLeft(Memory(a, limited) as real, Memory(b, limited) as real, p.memory);
  }

  lemma SpreadLeft(x: real, y: real, n: real)
    ensures Times(x + y, n) == Times(x, n) + Times(y, n)
  {
  }

  lemma CostAtAdds(kind: string, s: Scale, r1: real, l1: real, r2: real, l2: real)
    ensures var whole, parts := CostAt(kind, s, r1 + r2, l1 + l2), CostAt(kind, s, r1, l1).Add(CostAt(kind, s, r2, l2));
            && whole.minRequested == parts.minRequested
            && whole.maxRequested == parts.maxRequested
            && whole.hpaBuffer == parts.hpaBuffer
            && whole.minLimited <= parts.minLimited
            && whole.maxLimited <= parts.maxLimited
  {
  }

  /** Putting the containers of two equally scaled workloads into one costs
      exactly the sum in requests and buffer, and no more than the sum in limits. */
  lemma MergingCostsNoMore(kind: string, a: seq<Container>, b: seq<Container>, replicas: int, hpa: HPA, p: Prices)
    ensures var whole := WorkloadCost(kind, a + b, replicas, hpa, p);
            var parts := WorkloadCost(kind, a, replicas, hpa, p).Add(WorkloadCost(kind, b, replicas, hpa, p));
            && whole.minRequested == parts.minRequested
            && whole.maxRequested == parts.maxRequested
            && whole.hpaBuffer == parts.hpaBuffer
            && whole.minLimited <= parts.minLimited
            && whole.maxLimited <= parts.maxLimited
  {
    hide Rate, CostAt;
    RateAppend(a, b, p, false);
    RateAppend(a, b, p, true);
    CostAtAdds(kind, ScaleOf(replicas, hpa), Rate(a, p, false), Rate(a, p, true), Rate(b, p, false), Rate(b, p, true));
  }
}
