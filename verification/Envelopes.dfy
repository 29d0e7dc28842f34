/** The envelope of a whole estimate. */
module Envelopes {
  import opened Collections
  import opened Costs
  import opened Workloads
  import opened Defaults
  import opened Autoscalers
  import opened Linking
  import opened Loading
  import opened Estimates

  ghost predicate SoundWorkload(w: WorkloadSpec) {
    (forall c :: c in w.containers ==> NonNegative(c)) && SoundScale(w.replicas, w.hpa)
  }

  ghost predicate SoundObjects(l: Loaded) {
    && (forall w :: w in l.deployments + l.replicaSets + l.statefulSets ==> SoundWorkload(w))
    && (forall d :: d in l.daemonSets ==> d.nodesCount >= 0 && forall c :: c in d.containers ==> NonNegative(c))
    && (forall v :: v in l.volumeClaims ==> v.requests.storage >= 0)
  }

  ghost predicate SoundAutoscalers(hpas: seq<HPA>) {
    forall h :: h in hpas ==> SoundScale(0, h)
  }

  lemma LinkedStaySound(ws: seq<WorkloadSpec>, hpas: seq<HPA>)
    requires (forall w :: w in ws ==> SoundWorkload(w)) && SoundAutoscalers(hpas)
    requires forall h :: h in hpas ==> h.apiVersionKindName != ""
    ensures forall w :: w in LinkAll(ws, hpas) ==> SoundWorkload(w)
  {
    var linked := LinkAll(ws, hpas);
    forall w | w in linked ensures SoundWorkload(w) {
      var i: nat :| i < |linked| && linked[i] == w;
      LinkAllAssigns(ws, hpas, i);
      AssignedIs(KeysOf(ws), hpas, i, ws[i].hpa);
      assert ws[i] in ws;
    }
  }

  lemma WorkloadRangeInEnvelope(kind: string, ws: seq<WorkloadSpec>, p: Prices)
    requires NonNegativePrices(p) && forall w :: w in ws ==> SoundWorkload(w)
    ensures forall c :: c in WorkloadCosts(kind, ws, p) ==> c.InEnvelope()
    ensures Sum(kind, WorkloadCosts(kind, ws, p)).InEnvelope()
  {
    forall c | c in WorkloadCosts(kind, ws, p) ensures c.InEnvelope() {
      var i :| 0 <= i < |ws| && WorkloadCosts(kind, ws, p)[i] == c;
      assert ws[i] in ws;
      WorkloadInEnvelope(kind, ws[i].containers, ws[i].replicas, ws[i].hpa, p);
    }
    SumKeepsEnvelope(kind, WorkloadCosts(kind, ws, p));
  }

  lemma OtherRangesInEnvelope(ds: seq<DaemonSet>, vs: seq<VolumeClaim>, p: Prices)
    requires NonNegativePrices(p)
    requires forall d :: d in ds ==> d.nodesCount >= 0 && forall c :: c in d.containers ==> NonNegative(c)
    requires forall v :: v in vs ==> v.requests.storage >= 0
    ensures Sum(DAEMON_SET, DaemonSetCosts(ds, p)).InEnvelope() && Sum(VOLUME_CLAIM, ClaimCosts(vs, p)).InEnvelope()
  {
    forall c | c in DaemonSetCosts(ds, p) ensures c.InEnvelope() {
      var i :| 0 <= i < |ds| && DaemonSetCosts(ds, p)[i] == c;
      assert ds[i] in ds;
      DaemonSetInEnvelope(ds[i], p);
    }
    SumKeepsEnvelope(DAEMON_SET, DaemonSetCosts(ds, p));
    forall c | c in ClaimCosts(vs, p) ensures c.InEnvelope() {
      var i :| 0 <= i < |vs| && ClaimCosts(vs, p)[i] == c;
      assert vs[i] in vs;
      VolumeClaimInEnvelope(vs[i], p);
    }
    SumKeepsEnvelope(VOLUME_CLAIM, ClaimCosts(vs, p));
  }

  /** For non-negative prices and quantities and sound autoscalers, every range
      of the estimate and its total lie in the envelope. */
  lemma EstimateInEnvelope(l: Loaded, p: Prices)
    requires NonNegativePrices(p) && SoundObjects(l) && SoundAutoscalers(l.hpas)
    requires forall h :: h in l.hpas ==> h.apiVersionKindName != ""
    ensures forall c :: c in Estimate(l, p) ==> c.InEnvelope()
    ensures Sum("MonthlyTotal", Estimate(l, p)).InEnvelope()
  {
    var q := Prepared(l);
    LinkedStaySound(l.deployments, l.hpas);
    LinkedStaySound(l.replicaSets, l.hpas);
    LinkedStaySound(l.statefulSets, l.hpas);
    WorkloadRangeInEnvelope(DEPLOYMENT, q.deployments, p);
    WorkloadRangeInEnvelope(REPLICA_SET, q.replicaSets, p);
    WorkloadRangeInEnvelope(STATEFUL_SET, q.statefulSets, p);
    OtherRangesInEnvelope(l.daemonSets, l.volumeClaims, p);
    SumKeepsEnvelope("MonthlyTotal", Estimate(l, p));
  }

  // ----- Sound documents -----

  /** The request stated, or the limit that stands in for it, is not negative. */
  predicate SoundRequest(request: int, limit: int) {
    request > 0 || (request == 0 && limit >= 0)
  }

  predicate SoundPods(containers: seq<PodContainer>) {
    forall c :: c in containers ==>
      SoundRequest(c.requests.cpu, c.limits.cpu) && SoundRequest(c.requests.memory, c.limits.memory)
  }

  predicate SoundClaim(spec: ClaimSpec) {
    SoundRequest(spec.request, spec.limit)
  }

  /** The CPU target an autoscaler states, the last one if there are several, is at most 100. */
  ghost predicate TargetAtMost100(h: HpaObject) {
    match h
    case V1(_, _, _, _, target) => target.Some? ==> target.value <= 100
    case V2beta1(_, _, _, _, metrics) =>
      forall i :: LastStated(metrics, i) ==> metrics[i].averageUtilization.value <= 100
    case V2beta2(_, _, _, _, metrics) =>
      forall i :: LastStated(metrics, i) ==> metrics[i].averageUtilization.value <= 100
  }

  ghost predicate SoundAutoscaler(h: HpaObject) {
    && (h.minReplicas.Some? ==> 0 <= h.minReplicas.value <= h.maxReplicas)
    && (h.minReplicas.None? ==> 1 <= h.maxReplicas)
    && (h.minReplicas == Some(0) || TargetAtMost100(h))
  }

  lemma SoundAutoscalerIsSoundScale(h: HpaObject)
    requires SoundAutoscaler(h)
    ensures SoundScale(0, HpaOf(h)) && HpaOf(h).apiVersionKindName != ""
  {
    if !h.V1? {
      hide LastStated, LastCpuTarget;
      LastIsStated(h.metrics);
    }
  }

  /** What Kubernetes checks of an object, as far as the estimate needs it. */
  ghost predicate SoundDocument(d: Document) {
    match d
    case HpaDoc(h) => SoundAutoscaler(h)
    case DeploymentDoc(_, pods) => GetOr(pods.replicas, 1) >= 0 && SoundPods(pods.containers)
    case ReplicaSetDoc(_, pods) => GetOr(pods.replicas, 1) >= 0 && SoundPods(pods.containers)
    case StatefulSetDoc(_, pods, templates) =>
      && GetOr(pods.replicas, 1) >= 0 && SoundPods(pods.containers)
      && forall t :: t in templates ==> SoundClaim(t.spec)
    case DaemonSetDoc(_, containers) => SoundPods(containers)
    case VolumeClaimDoc(_, spec) => SoundClaim(spec)
    case _ => true
  }

  /** No negative default; the percentage may be anything. */
  predicate SoundConfig(conf: Config) {
    && conf.resourceConf.defaultCPUinMillis >= 0 && conf.resourceConf.defaultMemoryinBytes >= 0
    && conf.nodesCount >= 0
  }

  lemma BuiltNonNegative(containers: seq<PodContainer>, conf: Config)
    requires SoundConfig(conf) && SoundPods(containers)
    ensures forall c :: c in BuiltAll(containers, Populated(conf)) ==> NonNegative(c)
  {
    forall c | c in BuiltAll(containers, Populated(conf)) ensures NonNegative(c) {
      var i :| 0 <= i < |containers| && BuiltAll(containers, Populated(conf))[i] == c;
      assert containers[i] in containers;
    }
  }

  lemma ClaimsNonNegative(templates: seq<ClaimTemplate>)
    requires forall t :: t in templates ==> SoundClaim(t.spec)
    ensures forall v :: v in ClaimsOf(templates) ==> v.requests.storage >= 0
  {
    forall v | v in ClaimsOf(templates) ensures v.requests.storage >= 0 {
      var i :| 0 <= i < |templates| && ClaimsOf(templates)[i] == v;
      assert templates[i] in templates;
    }
  }

  ghost predicate SoundAndNamed(l: Loaded) {
    && SoundObjects(l) && SoundAutoscalers(l.hpas)
    && forall h :: h in l.hpas ==> h.apiVersionKindName != ""
  }

  lemma SoundWithout()
    ensures forall n :: n >= 0 ==> SoundScale(n, NO_HPA)
  {
  }

  lemma OneIsSound(d: Document, conf: Config)
    requires SoundConfig(conf) && SoundDocument(d)
    ensures SoundAndNamed(LoadOne(d, conf))
  {
    assert Populated(conf).nodesCount >= 0;
    hide BuiltAll, Populated, ClaimsOf, NonNegative, HpaOf, KeyOf, SoundAutoscaler, SoundScale, SoundPods, SoundClaim;
    SoundWithout();
    match d
    case HpaDoc(h) => SoundAutoscalerIsSoundScale(h);
    case DeploymentDoc(_, pods) => BuiltNonNegative(pods.containers, conf);
    case ReplicaSetDoc(_, pods) => BuiltNonNegative(pods.containers, conf);
    case StatefulSetDoc(_, pods, templates) =>
      BuiltNonNegative(pods.containers, conf);
      ClaimsNonNegative(templates);
    case DaemonSetDoc(_, containers) => BuiltNonNegative(containers, conf);
    case _ =>
  }

  lemma AppendIsSound(a: Loaded, b: Loaded)
    requires SoundAndNamed(a) && SoundAndNamed(b)
    ensures SoundAndNamed(a.Append(b))
  {
    hide SoundWorkload, NonNegative, SoundScale;
  }

  lemma {:induction false} LoadedIsSound(docs: seq<Document>, conf: Config)
    requires SoundConfig(conf) && forall d :: d in docs ==> SoundDocument(d)
    ensures SoundAndNamed(LoadAll(docs, conf))
  {
    if docs != [] {
      hide SoundDocument, SoundConfig, SoundAndNamed, LoadOne;
      LoadedIsSound(DropLast(docs), conf);
      OneIsSound(Last(docs), conf);
      AppendIsSound(LoadAll(DropLast(docs), conf), LoadOne(Last(docs), conf));
    }
  }

  /** For sound documents every range of the estimate and its total lie in the
      envelope, also where a computed limit leaves the 64-bit range. */
  lemma DocumentsInEnvelope(docs: seq<Document>, conf: Config, p: Prices)
    requires NonNegativePrices(p) && SoundConfig(conf) && forall d :: d in docs ==> SoundDocument(d)
    ensures forall c :: c in Estimate(LoadAll(docs, conf), p) ==> c.InEnvelope()
    ensures Sum("MonthlyTotal", Estimate(LoadAll(docs, conf), p)).InEnvelope()
  {
    hide Estimate, SoundObjects, SoundAutoscalers, LoadAll;
    LoadedIsSound(docs, conf);
    EstimateInEnvelope(LoadAll(docs, conf), p);
  }
}
