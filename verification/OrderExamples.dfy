/** Three documents in two orders: estimates that differ, and an ambiguity that
    does not show. */
module OrderExamples {
  import opened Collections
  import opened Costs
  import opened Workloads
  import opened Defaults
  import opened Keys
  import opened Autoscalers
  import opened Linking
  import opened Loading
  import opened Estimates
  import opened DocumentOrder
  import opened EstimateOrder

  /** A container of one core and one byte. */
  const CORE := PodContainer(Quantities(1000, 1), Quantities(1000, 1))

  function Web(replicas: int, containers: seq<PodContainer>): Document {
    DeploymentDoc(ObjectMeta("apps/v1", "", "web"), PodTemplate(Some(replicas), containers))
  }

  function WebAutoscaler(name: string, minReplicas: int): Document {
    HpaDoc(V1(Meta("autoscaling/v1", "HorizontalPodAutoscaler", "", name), Target("apps/v1", DEPLOYMENT, "web"),
              Some(minReplicas), 10, None))
  }

  function WebSpec(replicas: int, containers: seq<PodContainer>, conf: Config): WorkloadSpec {
    SpecOf(DEPLOYMENT, ObjectMeta("apps/v1", "", "web"), PodTemplate(Some(replicas), containers), conf)
  }

  lemma WebNamed(replicas: int, containers: seq<PodContainer>, conf: Config, name: string, minReplicas: int)
    ensures ListOf(LoadOne(Web(replicas, containers), conf), DEPLOYMENT) == [WebSpec(replicas, containers, conf)]
    ensures LoadOne(WebAutoscaler(name, minReplicas), conf).hpas == [HpaOf(WebAutoscaler(name, minReplicas).hpa)]
    ensures Names(WebSpec(replicas, containers, conf).key, HpaOf(WebAutoscaler(name, minReplicas).hpa).targetRef)
  {
  }

  lemma CoreCost(replicas: int, conf: Config, h: HPA, p: Prices)
    requires p.cpu > 0.0 && p.memory >= 0.0
    ensures Rate(WebSpec(replicas, [CORE], conf).containers, p, false) == p.cpu + p.memory
    ensures CostUnder(DEPLOYMENT, WebSpec(replicas, [CORE], conf), h, p).minRequested
         == (if h.apiVersionKindName == "" then replicas else h.minReplicas) as real * (p.cpu + p.memory)
  {
    var cs := WebSpec(replicas, [CORE], conf).containers;
    assert cs == [Container(Resource(1000, 1, 0), Resource(1000, 1, 0))];
    assert DropLast(cs) == [];
    assert MilliCpu(cs, false) == 1000 && Memory(cs, false) == 1;
  }

  lemma NothingLoaded(conf: Config)
    ensures LoadAll([], conf) == NOTHING && ListOf(NOTHING, DEPLOYMENT) == []
  {
  }

  /** One deployment and two autoscalers, the last of which counts. */
  lemma AutoscaledTotal(conf: Config, y: string, m: int, z: string, n: int, p: Prices)
    requires p.cpu > 0.0 && p.memory >= 0.0
    ensures var l := LoadAll([Web(1, [CORE])] + [WebAutoscaler(y, m)] + [WebAutoscaler(z, n)], conf);
            && ListOf(l, DEPLOYMENT) != []
            && Total(DEPLOYMENT, ListOf(l, DEPLOYMENT), l.hpas, p).minRequested == n as real * (p.cpu + p.memory)
  {
    hide LoadAll, LoadOne, ListOf, Total, CostUnder, Names, WebSpec, HpaOf;
    var w, g, h := WebSpec(1, [CORE], conf), HpaOf(WebAutoscaler(y, m).hpa), HpaOf(WebAutoscaler(z, n).hpa);
    NothingLoaded(conf);
    WebNamed(1, [CORE], conf, y, m);
    WebNamed(1, [CORE], conf, z, n);
    assert [] + [Web(1, [CORE])] == [Web(1, [CORE])];
    EndsInAutoscalers([], Web(1, [CORE]), WebAutoscaler(y, m), WebAutoscaler(z, n), conf, DEPLOYMENT, w, g, h);
    assert [] + [w] == [w] && [] + [g] == [g];
    LastOfTwo(DEPLOYMENT, w, [g], h, p);
    WebBounds(z, n);
    CoreCost(1, conf, h, p);
  }

  lemma WebBounds(name: string, minReplicas: int)
    ensures var h := HpaOf(WebAutoscaler(name, minReplicas).hpa);
            h.apiVersionKindName != "" && h.minReplicas == minReplicas
  {
  }

  /** Of two autoscalers of one deployment the one that comes last decides the cost. */
  lemma LastAutoscalerDecides(conf: Config, p: Prices)
    requires p.cpu > 0.0 && p.memory >= 0.0
    ensures Estimate(LoadAll([Web(1, [CORE])] + [WebAutoscaler("a", 1)] + [WebAutoscaler("b", 2)], conf), p)
         != Estimate(LoadAll([Web(1, [CORE])] + [WebAutoscaler("b", 2)] + [WebAutoscaler("a", 1)], conf), p)
  {
    hide LoadAll, Estimate, ListOf, Total, Web, WebAutoscaler;
    var x, y, z := Web(1, [CORE]), WebAutoscaler("a", 1), WebAutoscaler("b", 2);
    AutoscaledTotal(conf, "a", 1, "b", 2, p);
    AutoscaledTotal(conf, "b", 2, "a", 1, p);
    if Estimate(LoadAll([x] + [y] + [z], conf), p) == Estimate(LoadAll([x] + [z] + [y], conf), p) {
      SameEstimateSameTotal([x] + [y] + [z], [x] + [z] + [y], conf, DEPLOYMENT, p);
    }
  }

  /** Two deployments of one name and one autoscaler, which scales the last of them. */
  lemma NamesakesTotal(conf: Config, m: int, n: int, p: Prices)
    requires p.cpu > 0.0 && p.memory >= 0.0
    ensures var l := LoadAll([WebAutoscaler("a", 5)] + [Web(m, [CORE])] + [Web(n, [CORE])], conf);
            && ListOf(l, DEPLOYMENT) != []
            && Total(DEPLOYMENT, ListOf(l, DEPLOYMENT), l.hpas, p).minRequested
                 == m as real * (p.cpu + p.memory) + 5.0 * (p.cpu + p.memory)
  {
    hide LoadAll, LoadOne, ListOf, Total, CostUnder, Names, WebSpec, HpaOf, SameUnderEach;
    var x, v, w := WebAutoscaler("a", 5), WebSpec(m, [CORE], conf), WebSpec(n, [CORE], conf);
    var h := HpaOf(x.hpa);
    NothingLoaded(conf);
    WebNamed(m, [CORE], conf, "a", 5);
    WebNamed(n, [CORE], conf, "a", 5);
    LoadedEnd([], x, conf, DEPLOYMENT);
    NoWorkload(x, conf, DEPLOYMENT);
    assert [] + [x] == [x];
    assert LoadAll([x], conf).hpas == [h] && ListOf(LoadAll([x], conf), DEPLOYMENT) == [];
    EndsInWorkloads([x], Web(m, [CORE]), Web(n, [CORE]), conf, DEPLOYMENT, v, w);
    assert [] + [v] == [v];
    OneAutoscaler(DEPLOYMENT, v, h, p);
    OneAutoscaler(DEPLOYMENT, w, h, p);
    TotalOfTwo(DEPLOYMENT, v, w, h, [h], p);
    assert LeftWith(v, w, h, [h]) == NO_HPA;
    WebBounds("a", 5);
    CoreCost(m, conf, NO_HPA, p);
    CoreCost(n, conf, h, p);
  }

  lemma OneAutoscaler(kind: string, w: WorkloadSpec, h: HPA, p: Prices)
    ensures SameUnderEach(kind, w, [h], p)
  {
  }

  /** Of two deployments with one name the one that comes last is scaled. */
  lemma LastNamesakeIsScaled(conf: Config, p: Prices)
    requires p.cpu > 0.0 && p.memory >= 0.0
    ensures Estimate(LoadAll([WebAutoscaler("a", 5)] + [Web(1, [CORE])] + [Web(2, [CORE])], conf), p)
         != Estimate(LoadAll([WebAutoscaler("a", 5)] + [Web(2, [CORE])] + [Web(1, [CORE])], conf), p)
  {
    hide LoadAll, Estimate, ListOf, Total, Web, WebAutoscaler;
    var x, y, z := WebAutoscaler("a", 5), Web(1, [CORE]), Web(2, [CORE]);
    NamesakesTotal(conf, 1, 2, p);
    NamesakesTotal(conf, 2, 1, p);
    if Estimate(LoadAll([x] + [y] + [z], conf), p) == Estimate(LoadAll([x] + [z] + [y], conf), p) {
      SameEstimateSameTotal([x] + [y] + [z], [x] + [z] + [y], conf, DEPLOYMENT, p);
    }
  }

  /** Without containers the same ambiguity costs nothing in any order. */
  lemma AmbiguousYetTheSame(conf: Config, p: Prices)
    ensures var docs := [WebAutoscaler("a", 5)] + [Web(1, [])] + [Web(2, [])];
            !AllUnambiguous(LoadAll(docs, conf)) && SameEstimateInEveryOrder(docs, conf, p)
  {
    hide LoadAll, LoadOne, Estimate, Names, WebSpec, Indifferent, SameEstimateInEveryOrder;
    var x, y, z := WebAutoscaler("a", 5), Web(1, []), Web(2, []);
    var h, v, w := HpaOf(x.hpa), WebSpec(1, [], conf), WebSpec(2, [], conf);
    var docs := [x] + [y] + [z];
    NothingLoaded(conf);
    WebNamed(1, [], conf, "a", 5);
    WebNamed(2, [], conf, "a", 5);
    forall kind | WorkloadKind(kind)
      ensures ListOf(LoadAll(docs, conf), kind) == if kind == DEPLOYMENT then [v, w] else []
      ensures LoadAll(docs, conf).hpas == [h]
    {
      ThreeLoaded(conf, kind);
    }
    var l := LoadAll(docs, conf);
    assert ListOf(l, DEPLOYMENT) == [v, w] && ListOf(l, REPLICA_SET) == [] && ListOf(l, STATEFUL_SET) == [];
    assert v in l.deployments && w in l.deployments && h in l.hpas;
    assert v.replicas == 1 && w.replicas == 2 && v.containers == [] && w.containers == [] by {
      WebSpecs(conf);
    }
    assert !NamesOne(h.targetRef, l.deployments);
    EmptyPodsIndifferent(DEPLOYMENT, l.deployments, l.hpas, p);
    EmptyPodsIndifferent(REPLICA_SET, l.replicaSets, l.hpas, p);
    EmptyPodsIndifferent(STATEFUL_SET, l.statefulSets, l.hpas, p);
    SameEstimateIffIndifferent(docs, conf, p);
  }

  lemma WebSpecs(conf: Config)
    ensures WebSpec(1, [], conf).replicas == 1 && WebSpec(2, [], conf).replicas == 2
    ensures WebSpec(1, [], conf).containers == [] && WebSpec(2, [], conf).containers == []
  {
  }

  lemma ThreeLoaded(conf: Config, kind: string)
    requires WorkloadKind(kind)
    ensures var l := LoadAll([WebAutoscaler("a", 5)] + [Web(1, [])] + [Web(2, [])], conf);
            && ListOf(l, kind) == (if kind == DEPLOYMENT then [WebSpec(1, [], conf), WebSpec(2, [], conf)] else [])
            && l.hpas == [HpaOf(WebAutoscaler("a", 5).hpa)]
  {
    hide LoadAll, LoadOne, ListOf, Web, WebAutoscaler, WebSpec, HpaOf;
    var x, y, z := WebAutoscaler("a", 5), Web(1, []), Web(2, []);
    assert [] + [x] == [x];
    NothingListed(conf, kind);
    WebLoads(1, [], conf, kind);
    WebLoads(2, [], conf, kind);
    AutoscalerLoads("a", 5, conf, kind);
    LoadedEnd([], x, conf, kind);
    LoadedEnd([x], y, conf, kind);
    LoadedEnd([x] + [y], z, conf, kind);
  }

  lemma NothingListed(conf: Config, kind: string)
    requires WorkloadKind(kind)
    ensures ListOf(LoadAll([], conf), kind) == [] && LoadAll([], conf).hpas == []
  {
  }

  lemma WebLoads(replicas: int, containers: seq<PodContainer>, conf: Config, kind: string)
    requires WorkloadKind(kind)
    ensures LoadOne(Web(replicas, containers), conf).hpas == []
    ensures ListOf(LoadOne(Web(replicas, containers), conf), kind)
         == if kind == DEPLOYMENT then [WebSpec(replicas, containers, conf)] else []
  {
  }

  lemma AutoscalerLoads(name: string, minReplicas: int, conf: Config, kind: string)
    requires WorkloadKind(kind)
    ensures ListOf(LoadOne(WebAutoscaler(name, minReplicas), conf), kind) == []
    ensures LoadOne(WebAutoscaler(name, minReplicas), conf).hpas == [HpaOf(WebAutoscaler(name, minReplicas).hpa)]
  {
  }

  lemma EmptyPodsCostNothing(kind: string, w: WorkloadSpec, h: HPA, p: Prices)
    requires w.containers == []
    ensures CostUnder(kind, w, h, p) == Zero(kind)
  {
    TimesZero(ScaleOf(w.replicas, h), p);
  }

  lemma TimesZero(s: Scale, p: Prices)
    ensures Times(0.0, p.cpu) == Times(0.0, p.memory) == 0.0
    ensures Times(s.least, 0.0) == Times(s.most, 0.0) == Times(s.buffered, 0.0) == 0.0
  {
  }

  lemma EmptyPodsIndifferent(kind: string, ws: seq<WorkloadSpec>, hpas: seq<HPA>, p: Prices)
    requires forall w :: w in ws ==> w.containers == []
    ensures Indifferent(kind, ws, hpas, p)
  {
    hide CostUnder, LeftWith;
    forall w, h | w in ws ensures CostUnder(kind, w, h, p) == Zero(kind) {
      EmptyPodsCostNothing(kind, w, h, p);
    }
  }
}
