/** Configuration defaults, and the requests and limits they fill in, in 64-bit arithmetic. */
module Defaults {
  import opened Collections
  import opened Costs
  import opened Workloads

  datatype ResourceConfig = ResourceConfig(machineFamily: string, region: string, defaultCPUinMillis: int,
                                           defaultMemoryinBytes: int, percentageIncrease: int)

  datatype Config = Config(resourceConf: ResourceConfig, nodesCount: int)

  function ConfigDefaults(): Config {
    Config(ResourceConfig("E2", "us-central1", 250, 64000000, 200), 3)
  }

  /** A field left out, zero or empty, takes its default. */
  function Populated(conf: Config): Config {
    var c, d := conf.resourceConf, ConfigDefaults();
    Config(ResourceConfig(if c.machineFamily != "" then c.machineFamily else d.resourceConf.machineFamily,
                          if c.region != "" then c.region else d.resourceConf.region,
                          if c.defaultCPUinMillis != 0 then c.defaultCPUinMillis
                          else d.resourceConf.defaultCPUinMillis,
                          if c.defaultMemoryinBytes != 0 then c.defaultMemoryinBytes
                          else d.resourceConf.defaultMemoryinBytes,
                          if c.percentageIncrease != 0 then c.percentageIncrease
                          else d.resourceConf.percentageIncrease),
           if conf.nodesCount != 0 then conf.nodesCount else d.nodesCount)
  }

  method PopulateConfigNotProvided(conf: Config) returns (ret: Config)
    ensures ret == Populated(conf)
    ensures var (given, rc) := (conf.resourceConf, ret.resourceConf);
            && rc.machineFamily == (if given.machineFamily != "" then given.machineFamily else "E2")
            && rc.region == (if given.region != "" then given.region else "us-central1")
            && rc.defaultCPUinMillis == (if given.defaultCPUinMillis != 0 then given.defaultCPUinMillis else 250)
            && rc.defaultMemoryinBytes
                 == (if given.defaultMemoryinBytes != 0 then given.defaultMemoryinBytes else 64000000)
            && rc.percentageIncrease == (if given.percentageIncrease != 0 then given.percentageIncrease else 200)
    ensures ret.nodesCount == if conf.nodesCount != 0 then conf.nodesCount else 3
  {
    ret := ConfigDefaults();
    var rc := ret.resourceConf;
    if conf.resourceConf.machineFamily != "" {
      rc := rc.(machineFamily := conf.resourceConf.machineFamily);
    }
    if conf.resourceConf.region != "" {
      rc := rc.(region := conf.resourceConf.region);
    }
    if conf.resourceConf.defaultCPUinMillis != 0 {
      rc := rc.(defaultCPUinMillis := conf.resourceConf.defaultCPUinMillis);
    }
    if conf.resourceConf.defaultMemoryinBytes != 0 {
      rc := rc.(defaultMemoryinBytes := conf.resourceConf.defaultMemoryinBytes);
    }
    if conf.resourceConf.percentageIncrease != 0 {
      rc := rc.(percentageIncrease := conf.resourceConf.percentageIncrease);
    }
    ret := ret.(resourceConf := rc);
    if conf.nodesCount != 0 {
      ret := ret.(nodesCount := conf.nodesCount);
    }
  }

  predicate NonNegativeConfig(conf: Config) {
    conf.resourceConf.defaultCPUinMillis >= 0 && conf.resourceConf.defaultMemoryinBytes >= 0
    && conf.resourceConf.percentageIncrease >= 0 && conf.nodesCount >= 0
  }

  predicate PositiveConfig(conf: Config) {
    0 < conf.resourceConf.defaultCPUinMillis <= MAX_INT64 && 0 < conf.resourceConf.defaultMemoryinBytes <= MAX_INT64
    && conf.resourceConf.percentageIncrease > 0 && conf.nodesCount > 0
  }

  // ----- 64-bit arithmetic -----

  const MAX_INT64 := 0x7fff_ffff_ffff_ffff
  const TWO_64 := 0x1_0000_0000_0000_0000

  /** Go's int64 keeps the low 64 bits. */
  function Wrap(x: int): int {
    (x + MAX_INT64 + 1) % TWO_64 - MAX_INT64 - 1
  }

  /** Go's division truncates toward zero. */
  function Quotient(a: int, b: int): int
    requires b > 0
  {
    if a >= 0 then a / b else -((-a) / b)
  }

  /** The limit of a resource that has none: the request and a percentage more. */
  function Increased(request: int, percent: int): int {
    Wrap(request + Quotient(Wrap(percent * request), 100))
  }

  predicate LimitFits(request: int, percent: int) {
    percent * request <= MAX_INT64 && request + percent * request / 100 <= MAX_INT64
  }

  lemma WrapBounds(x: int)
    ensures -MAX_INT64 - 1 <= Wrap(x) <= MAX_INT64
    ensures -MAX_INT64 - 1 <= x <= MAX_INT64 ==> Wrap(x) == x
    ensures x > MAX_INT64 ==> Wrap(x) <= x - TWO_64
  {
  }

  lemma ProductNonNegative(a: int, b: int)
    requires a >= 0 && b >= 0
    ensures a * b >= 0
  {
  }

  /** The computed limit is the intended one exactly when neither the product nor
      the sum leaves the 64-bit range. */
  lemma LimitExactIff(request: int, percent: int)
    requires 0 < request <= MAX_INT64 && percent >= 0
    ensures Increased(request, percent) == request + percent * request / 100 <==> LimitFits(request, percent)
  {
    var product := percent * request;
    ProductNonNegative(percent, request);
    WrapBounds(product);
    var sum := request + Quotient(Wrap(product), 100);
    WrapBounds(sum);
    if product > MAX_INT64 && request + product / 100 <= MAX_INT64 {
      assert Quotient(Wrap(product), 100) < product / 100;
      assert sum >= -MAX_INT64;
    }
  }

  /** A request that fits with its percentage gets a limit at least as large. */
  lemma FittingLimit(request: int, percent: int)
    requires 0 < request && percent >= 0 && request * (100 + percent) <= MAX_INT64
    ensures LimitFits(request, percent)
    ensures Increased(request, percent) == request + percent * request / 100 >= request
  {
    ProductNonNegative(percent, request);
    assert request * (100 + percent) == 100 * request + percent * request;
    LimitExactIff(request, percent);
  }

  /** A request that fits without its percentage fitting: 50 petabytes at the
      default of 200 percent get a negative limit. */
  lemma LimitCanBeNegative()
    ensures Increased(50_000_000_000_000_000, ConfigDefaults().resourceConf.percentageIncrease) < 0
    ensures !LimitFits(50_000_000_000_000_000, ConfigDefaults().resourceConf.percentageIncrease)
  {
    assert Wrap(200 * 50_000_000_000_000_000) == 10_000_000_000_000_000_000 - TWO_64;
  }

  // ----- Containers -----

  /** CPU in thousandths of a core and memory in bytes, 0 when not stated. */
  datatype Quantities = Quantities(cpu: int, memory: int)

  datatype PodContainer = PodContainer(requests: Quantities, limits: Quantities)

  /** A request not stated is the limit or else the default. */
  function DefaultedRequest(request: int, limit: int, fallback: int): int {
    if request != 0 then request else if limit != 0 then limit else fallback
  }

  /** A limit not stated is the request and a percentage more. */
  function DefaultedLimit(request: int, limit: int, fallback: int, percent: int): int {
    if limit != 0 then limit else Increased(DefaultedRequest(request, limit, fallback), percent)
  }

  function Built(c: PodContainer, conf: Config): Container {
    var rc := conf.resourceConf;
    Container(Resource(DefaultedRequest(c.requests.cpu, c.limits.cpu, rc.defaultCPUinMillis),
                       DefaultedRequest(c.requests.memory, c.limits.memory, rc.defaultMemoryinBytes), 0),
              Resource(DefaultedLimit(c.requests.cpu, c.limits.cpu, rc.defaultCPUinMillis, rc.percentageIncrease),
                       DefaultedLimit(c.requests.memory, c.limits.memory, rc.defaultMemoryinBytes,
                                      rc.percentageIncrease), 0))
  }

  function BuiltAll(cont: seq<PodContainer>, conf: Config): seq<Container> {
    seq(|cont|, i requires 0 <= i < |cont| => Built(cont[i], conf))
  }

  /** Both resources alike: what is stated stands; a request not stated is the
      limit and, without one, the default; a limit not stated is computed from
      the request that was built. */
  method BuildContainers(cont: seq<PodContainer>, conf: Config) returns (containers: seq<Container>)
    ensures containers == BuiltAll(cont, conf)
    ensures |containers| == |cont|
    ensures forall i :: 0 <= i < |cont| ==>
              var (stated, built, rc) := (cont[i], containers[i], conf.resourceConf);
              && (stated.requests.cpu != 0 ==> built.requests.cpu == stated.requests.cpu)
              && (stated.requests.cpu == 0 && stated.limits.cpu != 0 ==> built.requests.cpu == stated.limits.cpu)
              && (stated.requests.cpu == 0 == stated.limits.cpu ==> built.requests.cpu == rc.defaultCPUinMillis)
              && (stated.limits.cpu != 0 ==> built.limits.cpu == stated.limits.cpu)
              && (stated.limits.cpu == 0 ==>
                    built.limits.cpu == Increased(built.requests.cpu, rc.percentageIncrease))
    ensures forall i :: 0 <= i < |cont| ==>
              var (stated, built, rc) := (cont[i], containers[i], conf.resourceConf);
              && (stated.requests.memory != 0 ==> built.requests.memory == stated.requests.memory)
              && (stated.requests.memory == 0 && stated.limits.memory != 0 ==>
                    built.requests.memory == stated.limits.memory)
              && (stated.requests.memory == 0 == stated.limits.memory ==>
                    built.requests.memory == rc.defaultMemoryinBytes)
              && (stated.limits.memory != 0 ==> built.limits.memory == stated.limits.memory)
              && (stated.limits.memory == 0 ==>
                    built.limits.memory == Increased(built.requests.memory, rc.percentageIncrease))
    ensures forall i :: 0 <= i < |cont| ==> containers[i].requests.storage == 0 == containers[i].limits.storage
  {
    containers := [];
    for i := 0 to |cont|
      invariant containers == BuiltAll(cont[..i], conf)
    {
      var requestsCPU, requestsMemory := cont[i].requests.cpu, cont[i].requests.memory;
      var limitsCPU, limitsMemory := cont[i].limits.cpu, cont[i].limits.memory;
      if requestsCPU == 0 {
        requestsCPU := limitsCPU;
      }
      if requestsMemory == 0 {
        requestsMemory := limitsMemory;
      }
      if requestsCPU == 0 {
        requestsCPU := conf.resourceConf.defaultCPUinMillis;
      }
      if requestsMemory == 0 {
        requestsMemory := conf.resourceConf.defaultMemoryinBytes;
      }
      if limitsCPU == 0 {
        limitsCPU := Increased(requestsCPU, conf.resourceConf.percentageIncrease);
      }
      if limitsMemory == 0 {
        limitsMemory := Increased(requestsMemory, conf.resourceConf.percentageIncrease);
      }
      var container := Container(Resource(requestsCPU, requestsMemory, 0), Resource(limitsCPU, limitsMemory, 0));
      assert container == Built(cont[i], conf);
      containers := containers + [container];
    }
    assert cont[..|cont|] == cont;
  }

  /** The stated quantities are 64-bit and not negative, and a limit that has to
      be computed fits. */
  predicate Sound(request: int, limit: int, fallback: int, percent: int) {
    && 0 <= request <= MAX_INT64 && 0 <= limit <= MAX_INT64
    && (limit == 0 ==> LimitFits(DefaultedRequest(request, limit, fallback), percent))
  }

  /** Defaulting makes both quantities positive, and the limit falls below the
      request exactly when both were stated that way. */
  lemma DefaultedSoundly(request: int, limit: int, fallback: int, percent: int)
    requires 0 < fallback <= MAX_INT64 && percent >= 0 && Sound(request, limit, fallback, percent)
    ensures DefaultedRequest(request, limit, fallback) > 0
    ensures DefaultedLimit(request, limit, fallback, percent) > 0
    ensures DefaultedLimit(request, limit, fallback, percent) < DefaultedRequest(request, limit, fallback)
            <==> 0 < limit < request
  {
    if limit == 0 {
      var built := DefaultedRequest(request, limit, fallback);
      LimitExactIff(built, percent);
      ProductNonNegative(percent, built);
    }
  }

  predicate SoundContainer(c: PodContainer, conf: Config) {
    var rc := conf.resourceConf;
    && Sound(c.requests.cpu, c.limits.cpu, rc.defaultCPUinMillis, rc.percentageIncrease)
    && Sound(c.requests.memory, c.limits.memory, rc.defaultMemoryinBytes, rc.percentageIncrease)
  }

  predicate In64Bits(q: Quantities) {
    0 <= q.cpu <= MAX_INT64 && 0 <= q.memory <= MAX_INT64
  }

  /** The limit meant by the source for the request that was built, in unbounded arithmetic. */
  function IntendedLimit(request: int, limit: int, percent: int): int {
    if limit != 0 then limit else request + percent * request / 100
  }

  /** The limits built for a container are the intended ones exactly when the
      arithmetic of every limit that has to be computed fits. */
  lemma BuiltAsIntendedIff(c: PodContainer, conf: Config)
    requires PositiveConfig(conf) && In64Bits(c.requests) && In64Bits(c.limits)
    ensures var (percent, built) := (conf.resourceConf.percentageIncrease, Built(c, conf));
            && built.limits.cpu == IntendedLimit(built.requests.cpu, c.limits.cpu, percent)
            && built.limits.memory == IntendedLimit(built.requests.memory, c.limits.memory, percent)
            <==> SoundContainer(c, conf)
  {
    hide Increased, LimitFits;
    var rc := conf.resourceConf;
    LimitExactIff(DefaultedRequest(c.requests.cpu, 0, rc.defaultCPUinMillis), rc.percentageIncrease);
    LimitExactIff(DefaultedRequest(c.requests.memory, 0, rc.defaultMemoryinBytes), rc.percentageIncrease);
  }

  /** Both the request and the limit are stated, and the limit is the smaller. */
  predicate StatesLimitBelowRequest(c: PodContainer) {
    0 < c.limits.cpu < c.requests.cpu || 0 < c.limits.memory < c.requests.memory
  }

  /** What a container states being sound, all four built quantities are positive. */
  lemma BuiltIsPositive(c: PodContainer, conf: Config)
    requires PositiveConfig(conf) && SoundContainer(c, conf)
    ensures var b := Built(c, conf);
            && b.requests.cpu > 0 && b.requests.memory > 0 && b.limits.cpu > 0 && b.limits.memory > 0
            && (b.limits.cpu < b.requests.cpu || b.limits.memory < b.requests.memory <==> StatesLimitBelowRequest(c))
  {
    var rc := conf.resourceConf;
    DefaultedSoundly(c.requests.cpu, c.limits.cpu, rc.defaultCPUinMillis, rc.percentageIncrease);
    DefaultedSoundly(c.requests.memory, c.limits.memory, rc.defaultMemoryinBytes, rc.percentageIncrease);
  }

  /** Whatever the configuration, once populated its defaults are usable. */
  lemma PopulatedIsPositive(conf: Config)
    requires NonNegativeConfig(conf)
    requires conf.resourceConf.defaultCPUinMillis <= MAX_INT64 && conf.resourceConf.defaultMemoryinBytes <= MAX_INT64
    ensures PositiveConfig(Populated(conf))
  {
  }

  lemma {:induction false} LimitsCoverRequests(cs: seq<Container>)
    requires forall c :: c in cs ==> c.requests.cpu <= c.limits.cpu && c.requests.memory <= c.limits.memory
    ensures MilliCpu(cs, false) <= MilliCpu(cs, true) && Memory(cs, false) <= Memory(cs, true)
  {
    if cs != [] {
      LimitsCoverRequests(DropLast(cs));
      assert Last(cs) in cs;
    }
  }

  lemma TimesMonotone(n: real, a: real, b: real)
    requires n >= 0.0 && a <= b
    ensures Times(n, a) <= Times(n, b)
  {
  }

  lemma RateCovers(cs: seq<Container>, p: Prices)
    requires NonNegativePrices(p) && MilliCpu(cs, false) <= MilliCpu(cs, true) && Memory(cs, false) <= Memory(cs, true)
    ensures Rate(cs, p, false) <= Rate(cs, p, true)
  {
  }

  /** The cost as computed, before the clamp. */
  function Unclamped(kind: string, s: Scale, requested: real, limited: real): CostRange {
    CostRange(kind, Times(s.least, requested), Times(s.most, requested), Times(s.buffered, requested),
              Times(s.least, limited), Times(s.most, limited))
  }

  /** The clamp changes nothing unless some container states a limit below its request. */
  lemma ClampIsIdle(kind: string, cont: seq<PodContainer>, conf: Config, replicas: int, hpa: HPA, p: Prices)
    requires PositiveConfig(conf) && NonNegativePrices(p) && SoundScale(replicas, hpa)
    requires forall c :: c in cont ==> SoundContainer(c, conf) && !StatesLimitBelowRequest(c)
    ensures var cs := BuiltAll(cont, conf);
            WorkloadCost(kind, cs, replicas, hpa, p)
              == Unclamped(kind, ScaleOf(replicas, hpa), Rate(cs, p, false), Rate(cs, p, true))
  {
    var cs, s := BuiltAll(cont, conf), ScaleOf(replicas, hpa);
    forall c | c in cs ensures c.requests.cpu <= c.limits.cpu && c.requests.memory <= c.limits.memory {
      var i :| 0 <= i < |cs| && cs[i] == c;
      assert cont[i] in cont;
      BuiltIsPositive(cont[i], conf);
    }
    LimitsCoverRequests(cs);
    RateCovers(cs, p);
    ScaleBounds(replicas, hpa);
    TimesMonotone(s.least, Rate(cs, p, false), Rate(cs, p, true));
    TimesMonotone(s.most, Rate(cs, p, false), Rate(cs, p, true));
  }
}
