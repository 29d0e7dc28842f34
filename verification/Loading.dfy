/** What the documents of a file amount to once loaded. */
module Loading {
  import opened Collections
  import opened Workloads
  import opened Defaults
  import opened Keys
  import opened Autoscalers
  import opened Linking

  datatype ObjectMeta = ObjectMeta(apiVersion: string, namespace: string, name: string)

  datatype PodTemplate = PodTemplate(replicas: Option<int>, containers: seq<PodContainer>)

  /** A claim's storage class and the bytes it requests and is limited to, 0 when not stated. */
  datatype ClaimSpec = ClaimSpec(storageClass: Option<string>, request: int, limit: int)

  datatype ClaimTemplate = ClaimTemplate(meta: ObjectMeta, spec: ClaimSpec)

  /** A decoded document. A workload's kind is the one the decoder dispatched on. */
  datatype Document =
    | Unsupported
    | Malformed
    | HpaDoc(hpa: HpaObject)
    | DeploymentDoc(meta: ObjectMeta, pods: PodTemplate)
    | ReplicaSetDoc(meta: ObjectMeta, pods: PodTemplate)
    | StatefulSetDoc(meta: ObjectMeta, pods: PodTemplate, templates: seq<ClaimTemplate>)
    | DaemonSetDoc(meta: ObjectMeta, containers: seq<PodContainer>)
    | VolumeClaimDoc(meta: ObjectMeta, spec: ClaimSpec)

  function KeyOf(kind: string, meta: ObjectMeta): Key {
    KindNameDropsVersion("", kind, meta.namespace, meta.name);
    assert BuildAPIVersionKindName(meta.apiVersion, kind, meta.namespace, meta.name)[|meta.apiVersion|] == '|';
    BuildAPIVersionKindName(meta.apiVersion, kind, meta.namespace, meta.name)
  }

  function SpecOf(kind: string, meta: ObjectMeta, pods: PodTemplate, conf: Config): WorkloadSpec {
    WorkloadSpec(KeyOf(kind, meta), GetOr(pods.replicas, 1), BuiltAll(pods.containers, Populated(conf)), NO_HPA)
  }

  /** A storage class left out or empty is "standard"; a request not stated is
      the limit, and a limit not stated is the request. */
  function ClaimOf(meta: ObjectMeta, spec: ClaimSpec): VolumeClaim {
    var request := if spec.request == 0 then spec.limit else spec.request;
    var limit := if spec.limit == 0 then request else spec.limit;
    VolumeClaim(BuildAPIVersionKindName(meta.apiVersion, VOLUME_CLAIM, meta.namespace, meta.name),
                if spec.storageClass.Some? && spec.storageClass.value != "" then spec.storageClass.value
                else "standard",
                Resource(0, 0, request), Resource(0, 0, limit))
  }

  function ClaimsOf(templates: seq<ClaimTemplate>): seq<VolumeClaim> {
    seq(|templates|, i requires 0 <= i < |templates| => ClaimOf(templates[i].meta, templates[i].spec))
  }

  function DaemonSetOf(meta: ObjectMeta, containers: seq<PodContainer>, conf: Config): DaemonSet {
    DaemonSet(BuildAPIVersionKindName(meta.apiVersion, DAEMON_SET, meta.namespace, meta.name),
              Populated(conf).nodesCount, BuiltAll(containers, Populated(conf)))
  }

  // ----- Loading -----

  /** The lists of the loaded objects, each in the order of loading. */
  datatype Loaded = Loaded(deployments: seq<WorkloadSpec>, replicaSets: seq<WorkloadSpec>,
                           statefulSets: seq<WorkloadSpec>, daemonSets: seq<DaemonSet>,
                           volumeClaims: seq<VolumeClaim>, hpas: seq<HPA>)
  {
    function Append(l: Loaded): Loaded {
      Loaded(deployments + l.deployments, replicaSets + l.replicaSets, statefulSets + l.statefulSets,
             daemonSets + l.daemonSets, volumeClaims + l.volumeClaims, hpas + l.hpas)
    }
  }

  const NOTHING := Loaded([], [], [], [], [], [])

  /** What one document adds; the claims of a StatefulSet's templates count as claims. */
  function LoadOne(d: Document, conf: Config): Loaded {
    match d
    case Unsupported => NOTHING
    case Malformed => NOTHING
    case HpaDoc(h) => NOTHING.(hpas := [HpaOf(h)])
    case DeploymentDoc(m, pods) => NOTHING.(deployments := [SpecOf(DEPLOYMENT, m, pods, conf)])
    case ReplicaSetDoc(m, pods) => NOTHING.(replicaSets := [SpecOf(REPLICA_SET, m, pods, conf)])
    case StatefulSetDoc(m, pods, templates) =>
      NOTHING.(statefulSets := [SpecOf(STATEFUL_SET, m, pods, conf)], volumeClaims := ClaimsOf(templates))
    case DaemonSetDoc(m, containers) => NOTHING.(daemonSets := [DaemonSetOf(m, containers, conf)])
    case VolumeClaimDoc(m, spec) => NOTHING.(volumeClaims := [ClaimOf(m, spec)])
  }

  function LoadAll(docs: seq<Document>, conf: Config): Loaded {
    if docs == [] then NOTHING else LoadAll(DropLast(docs), conf).Append(LoadOne(Last(docs), conf))
  }

  lemma {:induction false} LoadAppend(a: seq<Document>, b: seq<Document>, conf: Config)
    ensures LoadAll(a + b, conf) == LoadAll(a, conf).Append(LoadAll(b, conf))
  {
    if b == [] {
      assert a + b == a;
      assert LoadAll(a, conf).Append(NOTHING) == LoadAll(a, conf);
    } else {
      LoadAppend(a, DropLast(b), conf);
      assert DropLast(a + b) == a + DropLast(b);
      AppendAssociative(LoadAll(a, conf), LoadAll(DropLast(b), conf), LoadOne(Last(b), conf));
    }
  }

  lemma AppendAssociative(a: Loaded, b: Loaded, c: Loaded)
    ensures a.Append(b).Append(c) == a.Append(b.Append(c))
  {
  }

  predicate WorkloadKind(kind: string) {
    kind == DEPLOYMENT || kind == REPLICA_SET || kind == STATEFUL_SET
  }

  /** Three lists, three kinds. */
  function ListOf(l: Loaded, kind: string): seq<WorkloadSpec>
    requires WorkloadKind(kind)
  {
    if kind == DEPLOYMENT then l.deployments else if kind == REPLICA_SET then l.replicaSets else l.statefulSets
  }

  lemma LoadInserted(front: seq<Document>, d: Document, back: seq<Document>, conf: Config)
    ensures LoadAll(front + [d] + back, conf)
         == LoadAll(front, conf).Append(LoadOne(d, conf)).Append(LoadAll(back, conf))
  {
    hide LoadOne;
    LoadAppend(front + [d], back, conf);
    DropAppended(front, d);
  }

  lemma LoadSplit(docs: seq<Document>, k: nat, conf: Config)
    requires k < |docs|
    ensures LoadAll(docs, conf)
         == LoadAll(docs[..k], conf).Append(LoadOne(docs[k], conf)).Append(LoadAll(docs[k + 1..], conf))
    ensures LoadAll(docs[..k + 1], conf) == LoadAll(docs[..k], conf).Append(LoadOne(docs[k], conf))
  {
    hide LoadOne;
    assert docs == docs[..k] + [docs[k]] + docs[k + 1..];
    LoadInserted(docs[..k], docs[k], docs[k + 1..], conf);
    assert docs[..k + 1] == docs[..k] + [docs[k]];
    DropAppended(docs[..k], docs[k]);
  }

  lemma ListsSplit(docs: seq<Document>, k: nat, conf: Config, kind: string)
    requires k < |docs| && WorkloadKind(kind)
    ensures ListOf(LoadAll(docs, conf), kind)
         == ListOf(LoadAll(docs[..k], conf), kind) + ListOf(LoadOne(docs[k], conf), kind)
            + ListOf(LoadAll(docs[k + 1..], conf), kind)
    ensures ListOf(LoadAll(docs[..k + 1], conf), kind)
         == ListOf(LoadAll(docs[..k], conf), kind) + ListOf(LoadOne(docs[k], conf), kind)
  {
    hide LoadAll, LoadOne;
    LoadSplit(docs, k, conf);
  }

  lemma OthersSplit(docs: seq<Document>, k: nat, conf: Config)
    requires k < |docs|
    ensures var l, before, one := LoadAll(docs[..k + 1], conf), LoadAll(docs[..k], conf), LoadOne(docs[k], conf);
            && l.daemonSets == before.daemonSets + one.daemonSets
            && l.volumeClaims == before.volumeClaims + one.volumeClaims
  {
    hide LoadAll, LoadOne;
    LoadSplit(docs, k, conf);
  }

  /** The documents before the first one that does not decode. */
  function BeforeMalformed(docs: seq<Document>): (good: seq<Document>)
    ensures good <= docs && Malformed !in good
    ensures |good| < |docs| ==> docs[|good|].Malformed?
  {
    if docs == [] || docs[0].Malformed? then [] else [docs[0]] + BeforeMalformed(docs[1..])
  }

  lemma AllGood(docs: seq<Document>)
    requires Malformed !in docs
    ensures BeforeMalformed(docs) == docs
  {
  }

  lemma GoodUntil(docs: seq<Document>, i: nat)
    requires i < |docs| && Malformed !in docs[..i] && docs[i].Malformed?
    ensures BeforeMalformed(docs) == docs[..i]
  {
    var good := BeforeMalformed(docs);
    assert forall k :: 0 <= k < |good| ==> good[k] == docs[k];
    assert forall k :: 0 <= k < i ==> docs[..i][k] == docs[k];
    assert |good| == i;
  }

  lemma GoodAppend(a: seq<Document>, b: seq<Document>, c: seq<Document>)
    requires Malformed !in a && Malformed in b
    ensures BeforeMalformed(a + b + c) == a + BeforeMalformed(b)
  {
    var i := |BeforeMalformed(b)|;
    assert (a + b + c)[..|a| + i] == a + b[..i];
    assert (a + b + c)[|a| + i] == b[i];
    GoodUntil(a + b + c, |a| + i);
  }
}
