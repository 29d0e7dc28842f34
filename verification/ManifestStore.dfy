/** The loaded objects on the heap. Every workload is reachable from the list of
    its kind and, under two keys, from the reference map of its kind; linking an
    autoscaler through the map changes the object the list holds. */
module ManifestStore {
  import opened Collections
  import opened Costs
  import opened Workloads
  import opened Defaults
  import opened Keys
  import opened Autoscalers
  import opened Linking
  import opened Loading
  import opened Estimates
  import opened Documents

  /** A Deployment, ReplicaSet or StatefulSet. */
  class Workload {
    const apiVersionKindName: Key
    const replicas: int
    const containers: seq<Container>
    var hpa: HPA

    constructor (key: Key, replicas: int, containers: seq<Container>)
      ensures Spec() == WorkloadSpec(key, replicas, containers, NO_HPA)
    {
      this.apiVersionKindName, this.replicas, this.containers := key, replicas, containers;
      hpa := NO_HPA;
    }

    function Spec(): WorkloadSpec
      reads this
    {
      WorkloadSpec(apiVersionKindName, replicas, containers, hpa)
    }

    method EstimateCost(kind: string, p: Prices) returns (cost: CostRange)
      ensures cost == WorkloadCost(kind, containers, replicas, hpa, p)
    {
      cost := Workloads.EstimateCost(kind, containers, replicas, hpa, p);
    }
  }

  function Specs(list: seq<Workload>): (specs: seq<WorkloadSpec>)
    reads list
    ensures |specs| == |list| && forall i :: 0 <= i < |list| ==> specs[i] == list[i].Spec()
  {
    if list == [] then [] else Specs(DropLast(list)) + [Last(list).Spec()]
  }

  /** The keys do not depend on the heap. */
  function ListKeys(list: seq<Workload>): seq<Key> {
    seq(|list|, i requires 0 <= i < |list| => list[i].apiVersionKindName)
  }

  function ListSet(list: seq<Workload>): set<Workload> {
    set w | w in list
  }

  lemma SpecKeys(list: seq<Workload>)
    ensures KeysOf(Specs(list)) == ListKeys(list)
  {
  }

  lemma SpecsAppended(list: seq<Workload>, w: Workload)
    ensures Specs(list + [w]) == Specs(list) + [w.Spec()]
  {
    DropAppended(list, w);
  }

  /** The map leads from each name to the last element of the list that it names. */
  ghost predicate Indexed(list: seq<Workload>, ref: map<string, Workload>) {
    && (forall k :: k in ref <==> Latest(ListKeys(list), k) >= 0)
    && (forall k :: k in ref ==> ref[k] == list[Latest(ListKeys(list), k)])
  }

  lemma IndexedAppended(list: seq<Workload>, ref: map<string, Workload>, w: Workload)
    requires Indexed(list, ref)
    ensures Indexed(list + [w], ref[w.apiVersionKindName := w][BuildKindName(w.apiVersionKindName) := w])
  {
    hide Latest;
    var keys, key := ListKeys(list), w.apiVersionKindName;
    var ref' := ref[key := w][BuildKindName(key) := w];
    assert ListKeys(list + [w]) == keys + [key];
    forall k
      ensures k in ref' <==> Latest(ListKeys(list + [w]), k) >= 0
      ensures k in ref' ==> ref'[k] == (list + [w])[Latest(ListKeys(list + [w]), k)]
    {
      LatestAppended(keys, key, k);
    }
  }

  /** The list and the reference map of one kind. */
  class Registry {
    const kind: string
    var list: seq<Workload>
    var ref: map<string, Workload>

    /** Every value of the map is an element of the list: the last one the key names. */
    ghost predicate Valid()
      reads this
    {
      Distinct(list) && Indexed(list, ref)
    }

    constructor (kind: string)
      ensures this.kind == kind && list == [] && Valid()
    {
      this.kind := kind;
      list, ref := [], map[];
    }

    method Add(w: Workload)
      requires Valid() && w !in list
      modifies this
      ensures Valid() && list == old(list) + [w]
      ensures Specs(list) == old(Specs(list)) + [w.Spec()]
    {
      hide Indexed, Specs;
      SpecsAppended(list, w);
      IndexedAppended(list, ref, w);
      list := list + [w];
      ref := ref[w.apiVersionKindName := w];
      ref := ref[BuildKindName(w.apiVersionKindName) := w];
    }

    /** The body of the linking loop, for one kind. */
    method Link(hpa: HPA)
      requires Valid()
      modifies list
      ensures Valid()
      ensures Specs(list) == LinkOne(old(Specs(list)), hpa)
    {
      SpecKeys(list);
      var key := hpa.targetRef;
      if key in ref {
        var w := ref[key];
        assert w == list[Latest(ListKeys(list), key)];
        w.hpa := hpa;
      }
    }

    /** The range of the kind, or nothing if nothing of the kind is loaded. */
    method EstimateCost(p: Prices) returns (ranges: seq<CostRange>)
      ensures ranges == KindRange(kind, WorkloadCosts(kind, Specs(list), p))
    {
      if |list| == 0 {
        return [];
      }
      var range := Zero(kind);
      ghost var costs := WorkloadCosts(kind, Specs(list), p);
      for i := 0 to |list|
        invariant range == Sum(kind, costs[..i])
      {
        assert DropLast(costs[..i + 1]) == costs[..i];
        var cost := list[i].EstimateCost(kind, p);
        range := range.Add(cost);
      }
      assert costs[..|list|] == costs;
      return [range];
    }
  }

  method BuildClaim(meta: ObjectMeta, spec: ClaimSpec) returns (claim: VolumeClaim)
    ensures claim == ClaimOf(meta, spec)
    ensures spec.request != 0 ==> claim.requests.storage == spec.request
    ensures spec.request == 0 ==> claim.requests.storage == spec.limit
    ensures spec.limit != 0 ==> claim.limits.storage == spec.limit
    ensures spec.limit == 0 ==> claim.limits.storage == spec.request
    ensures claim.storageClass
         == if spec.storageClass.Some? && spec.storageClass.value != "" then spec.storageClass.value else "standard"
    ensures claim.apiVersionKindName
         == BuildAPIVersionKindName(meta.apiVersion, "PersistentVolumeClaim", meta.namespace, meta.name)
  {
    var storageClass := "standard";
    if spec.storageClass.Some? && spec.storageClass.value != "" {
      storageClass := spec.storageClass.value;
    }
    var requests, limits := spec.request, spec.limit;
    if requests == 0 {
      requests := limits;
    }
    if limits == 0 {
      limits := requests;
    }
    claim := VolumeClaim(BuildAPIVersionKindName(meta.apiVersion, VOLUME_CLAIM, meta.namespace, meta.name),
                         storageClass, Resource(0, 0, requests), Resource(0, 0, limits));
  }

  method BuildClaims(templates: seq<ClaimTemplate>) returns (claims: seq<VolumeClaim>)
    ensures claims == ClaimsOf(templates) && |claims| == |templates|
    ensures forall i :: 0 <= i < |templates| ==> claims[i] == ClaimOf(templates[i].meta, templates[i].spec)
  {
    claims := [];
    for i := 0 to |templates|
      invariant claims == ClaimsOf(templates[..i])
    {
      var claim := BuildClaim(templates[i].meta, templates[i].spec);
      claims := claims + [claim];
    }
    assert templates[..|templates|] == templates;
  }

  method BuildDaemonSet(meta: ObjectMeta, cont: seq<PodContainer>, config: Config) returns (d: DaemonSet)
    ensures d == DaemonSetOf(meta, cont, config)
    ensures d.nodesCount == if config.nodesCount != 0 then config.nodesCount else 3
    ensures d.apiVersionKindName
         == BuildAPIVersionKindName(meta.apiVersion, "DaemonSet", meta.namespace, meta.name)
  {
    var conf := PopulateConfigNotProvided(config);
    var containers := BuildContainers(cont, conf);
    d := DaemonSet(BuildAPIVersionKindName(meta.apiVersion, DAEMON_SET, meta.namespace, meta.name),
                   conf.nodesCount, containers);
  }

  method BuildWorkload(kind: string, meta: ObjectMeta, pods: PodTemplate, config: Config) returns (w: Workload)
    ensures fresh(w) && w.Spec() == SpecOf(kind, meta, pods, config)
    ensures w.apiVersionKindName == BuildAPIVersionKindName(meta.apiVersion, kind, meta.namespace, meta.name)
    ensures w.replicas == (if pods.replicas.Some? then pods.replicas.value else 1) && w.hpa == NO_HPA
    ensures w.containers == BuiltAll(pods.containers, Populated(config))
  {
    var conf := PopulateConfigNotProvided(config);
    var containers := BuildContainers(pods.containers, conf);
    var replicas := 1;
    if pods.replicas.Some? {
      replicas := pods.replicas.value;
    }
    w := new Workload(KeyOf(kind, meta), replicas, containers);
  }

  ghost predicate Apart(a: seq<Workload>, b: seq<Workload>) {
    forall i, j :: 0 <= i < |a| && 0 <= j < |b| ==> a[i] != b[j]
  }

  /** One autoscaler linked in every kind. */
  function Linked(l: Loaded, hpa: HPA): Loaded {
    l.(deployments := LinkOne(l.deployments, hpa),
       replicaSets := LinkOne(l.replicaSets, hpa),
       statefulSets := LinkOne(l.statefulSets, hpa))
  }

  /** Prepared with the first `n` autoscalers only. */
  function PreparedUpTo(l: Loaded, n: nat): Loaded
    requires n <= |l.hpas|
  {
    Prepared(l.(hpas := l.hpas[..n])).(hpas := l.hpas)
  }

  lemma PreparedStep(l: Loaded, n: nat)
    requires n < |l.hpas|
    ensures PreparedUpTo(l, n + 1) == Linked(PreparedUpTo(l, n), l.hpas[n])
  {
    assert DropLast(l.hpas[..n + 1]) == l.hpas[..n];
  }

  /** A document adds to the lists of its own kind only. */
  lemma OneAppended(l: Loaded, d: Document, conf: Config)
    ensures l.Append(LoadOne(d, conf))
         == match d
            case Unsupported => l
            case Malformed => l
            case HpaDoc(h) => l.(hpas := l.hpas + [HpaOf(h)])
            case DeploymentDoc(m, pods) => l.(deployments := l.deployments + [SpecOf(DEPLOYMENT, m, pods, conf)])
            case ReplicaSetDoc(m, pods) => l.(replicaSets := l.replicaSets + [SpecOf(REPLICA_SET, m, pods, conf)])
            case StatefulSetDoc(m, pods, templates) =>
              l.(statefulSets := l.statefulSets + [SpecOf(STATEFUL_SET, m, pods, conf)],
                 volumeClaims := l.volumeClaims + ClaimsOf(templates))
            case DaemonSetDoc(m, containers) => l.(daemonSets := l.daemonSets + [DaemonSetOf(m, containers, conf)])
            case VolumeClaimDoc(m, spec) => l.(volumeClaims := l.volumeClaims + [ClaimOf(m, spec)])
  {
  }

  lemma LoadNothing(l: Loaded, conf: Config)
    ensures l.Append(LoadAll([], conf)) == l
  {
  }

  lemma LoadStep(before: Loaded, docs: seq<Document>, i: nat, conf: Config)
    requires i < |docs|
    ensures before.Append(LoadAll(docs[..i], conf)).Append(LoadOne(docs[i], conf))
         == before.Append(LoadAll(docs[..i + 1], conf))
  {
    assert DropLast(docs[..i + 1]) == docs[..i];
    AppendAssociative(before, LoadAll(docs[..i], conf), LoadOne(docs[i], conf));
  }

  /** An entry met on the walk of a path: a directory, or a file that may be unreadable. */
  datatype PathEntry = PathEntry(path: string, isDir: bool, data: Option<string>)

  predicate EndsWith(s: string, suffix: string) {
    |suffix| <= |s| && s[|s| - |suffix|..] == suffix
  }

  predicate IsYaml(e: PathEntry) {
    !e.isDir && (EndsWith(e.path, ".yaml") || EndsWith(e.path, ".yml"))
  }

  /** A YAML file is a file whose path ends in ".yaml" or ".yml". */
  lemma YamlSuffix(e: PathEntry)
    ensures IsYaml(e)
            <==> !e.isDir && ((exists stem :: e.path == stem + ".yaml") || exists stem :: e.path == stem + ".yml")
  {
    if EndsWith(e.path, ".yaml") {
      assert e.path == e.path[..|e.path| - 5] + ".yaml";
    }
    if EndsWith(e.path, ".yml") {
      assert e.path == e.path[..|e.path| - 4] + ".yml";
    }
  }

  /** An unreadable file stops the loading like a document that does not decode. */
  function DocumentsIn(data: Option<string>, decode: string -> Document): seq<Document> {
    if data.None? then [Malformed] else Map(Split(data.value), decode)
  }

  function DocumentsOf(e: PathEntry, decode: string -> Document): seq<Document> {
    if IsYaml(e) then DocumentsIn(e.data, decode) else []
  }

  /** All documents of the YAML files of a walk, in its order. */
  function DocumentsAt(walk: seq<PathEntry>, decode: string -> Document): seq<Document> {
    if walk == [] then [] else DocumentsOf(walk[0], decode) + DocumentsAt(walk[1..], decode)
  }

  lemma FilesFrom(walk: seq<PathEntry>, i: nat, decode: string -> Document)
    requires i < |walk|
    ensures DocumentsAt(walk[i..], decode) == DocumentsOf(walk[i], decode) + DocumentsAt(walk[i + 1..], decode)
  {
    hide DocumentsOf;
    assert walk[i..][0] == walk[i] && walk[i..][1..] == walk[i + 1..];
  }

  lemma YamlDocuments(e: PathEntry, decode: string -> Document)
    ensures IsYaml(e) ==> DocumentsOf(e, decode) == DocumentsIn(e.data, decode)
  {
    hide DocumentsIn, IsYaml;
  }

  lemma NextFile(walk: seq<PathEntry>, i: nat, decode: string -> Document, seen: seq<Document>)
    requires i < |walk|
    ensures seen + DocumentsAt(walk[i..], decode)
         == seen + DocumentsOf(walk[i], decode) + DocumentsAt(walk[i + 1..], decode)
    ensures IsYaml(walk[i]) ==> DocumentsOf(walk[i], decode) == DocumentsIn(walk[i].data, decode)
  {
    FilesFrom(walk, i, decode);
    YamlDocuments(walk[i], decode);
    hide DocumentsAt, DocumentsOf, DocumentsIn, IsYaml;
    assert seen + (DocumentsOf(walk[i], decode) + DocumentsAt(walk[i + 1..], decode))
        == seen + DocumentsOf(walk[i], decode) + DocumentsAt(walk[i + 1..], decode);
  }

  lemma NoFiles(walk: seq<PathEntry>, decode: string -> Document)
    ensures DocumentsAt(walk[|walk|..], decode) == []
  {
  }

  lemma LoadMore(before: Loaded, seen: seq<Document>, more: seq<Document>, conf: Config)
    ensures before.Append(LoadAll(seen, conf)).Append(LoadAll(BeforeMalformed(more), conf))
         == before.Append(LoadAll(seen + BeforeMalformed(more), conf))
    ensures Malformed !in more ==> BeforeMalformed(more) == more
  {
    hide LoadAll, BeforeMalformed;
    LoadAppend(seen, BeforeMalformed(more), conf);
    AppendAssociative(before, LoadAll(seen, conf), LoadAll(BeforeMalformed(more), conf));
    if Malformed !in more {
      AllGood(more);
    }
  }

  lemma NotLoaded(e: PathEntry, decode: string -> Document, l: Loaded, conf: Config)
    requires !IsYaml(e)
    ensures DocumentsOf(e, decode) == [] && l.Append(LoadAll(BeforeMalformed([]), conf)) == l
  {
  }

  lemma MalformedAddsNothing(l: Loaded, d: Document, conf: Config)
    ensures d.Malformed? ==> l.Append(LoadOne(d, conf)) == l
  {
  }

  class Manifests {
    const deployments: Registry
    const replicaSets: Registry
    const statefulSets: Registry
    var daemonSets: seq<DaemonSet>
    var volumeClaims: seq<VolumeClaim>
    var hpas: seq<HPA>

    /** The registries are of their kinds and share no workload. */
    ghost predicate Valid()
      reads this, deployments, replicaSets, statefulSets
    {
      && deployments.kind == DEPLOYMENT && replicaSets.kind == REPLICA_SET && statefulSets.kind == STATEFUL_SET
      && deployments.Valid() && replicaSets.Valid() && statefulSets.Valid()
      && deployments != replicaSets && deployments != statefulSets && replicaSets != statefulSets
      && Apart(deployments.list, replicaSets.list)
      && Apart(deployments.list, statefulSets.list)
      && Apart(replicaSets.list, statefulSets.list)
    }

    /** Everything a reader of the lists can see. */
    function View(): Loaded
      reads this, deployments, replicaSets, statefulSets
      reads deployments.list, replicaSets.list, statefulSets.list
    {
      Loaded(Specs(deployments.list), Specs(replicaSets.list), Specs(statefulSets.list),
             daemonSets, volumeClaims, hpas)
    }

    /** The workloads in the three lists. */
    ghost function Objects(): set<Workload>
      reads this, deployments, replicaSets, statefulSets
    {
      ListSet(deployments.list) + ListSet(replicaSets.list) + ListSet(statefulSets.list)
    }

    lemma ObjectsListed()
      ensures forall k :: 0 <= k < |deployments.list| ==> deployments.list[k] in Objects()
      ensures forall k :: 0 <= k < |replicaSets.list| ==> replicaSets.list[k] in Objects()
      ensures forall k :: 0 <= k < |statefulSets.list| ==> statefulSets.list[k] in Objects()
    {
      assert forall k :: 0 <= k < |statefulSets.list| ==> statefulSets.list[k] in ListSet(statefulSets.list);
    }

    constructor ()
      ensures Valid() && View() == NOTHING && Objects() == {}
      ensures fresh(deployments) && fresh(replicaSets) && fresh(statefulSets)
    {
      deployments := new Registry(DEPLOYMENT);
      replicaSets := new Registry(REPLICA_SET);
      statefulSets := new Registry(STATEFUL_SET);
      daemonSets, volumeClaims, hpas := [], [], [];
    }

    method AddDeployment(meta: ObjectMeta, pods: PodTemplate, conf: Config)
      requires Valid()
      modifies deployments
      ensures Valid()
      ensures View() == old(View()).(deployments := old(View()).deployments + [SpecOf(DEPLOYMENT, meta, pods, conf)])
      ensures forall w :: w in Objects() ==> w in old(Objects()) || fresh(w)
    {
      hide Registry.Valid, SpecOf, Specs;
      var w := BuildWorkload(DEPLOYMENT, meta, pods, conf);
      deployments.Add(w);
    }

    method AddReplicaSet(meta: ObjectMeta, pods: PodTemplate, conf: Config)
      requires Valid()
      modifies replicaSets
      ensures Valid()
      ensures View() == old(View()).(replicaSets := old(View()).replicaSets + [SpecOf(REPLICA_SET, meta, pods, conf)])
      ensures forall w :: w in Objects() ==> w in old(Objects()) || fresh(w)
    {
      hide Registry.Valid, SpecOf, Specs;
      var w := BuildWorkload(REPLICA_SET, meta, pods, conf);
      replicaSets.Add(w);
    }

    method AddStatefulSet(meta: ObjectMeta, pods: PodTemplate, conf: Config)
      requires Valid()
      modifies statefulSets
      ensures Valid()
      ensures View()
           == old(View()).(statefulSets := old(View()).statefulSets + [SpecOf(STATEFUL_SET, meta, pods, conf)])
      ensures forall w :: w in Objects() ==> w in old(Objects()) || fresh(w)
    {
      hide Registry.Valid, SpecOf, Specs;
      var w := BuildWorkload(STATEFUL_SET, meta, pods, conf);
      statefulSets.Add(w);
    }

    method AddClaims(claims: seq<VolumeClaim>)
      requires Valid()
      modifies `volumeClaims
      ensures Valid() && View() == old(View()).(volumeClaims := old(View()).volumeClaims + claims)
      ensures Objects() == old(Objects())
    {
      hide Registry.Valid, Specs, Apart;
      if |claims| > 0 {
        volumeClaims := volumeClaims + claims;
      }
    }

    method LoadWorkload(d: Document, conf: Config)
      requires Valid() && (d.DeploymentDoc? || d.ReplicaSetDoc? || d.StatefulSetDoc?)
      modifies this, deployments, replicaSets, statefulSets
      ensures Valid() && View() == old(View()).Append(LoadOne(d, conf))
      ensures forall w :: w in Objects() ==> w in old(Objects()) || fresh(w)
    {
      hide Valid, View, Objects, LoadOne, Loaded.Append, SpecOf, ClaimsOf;
      OneAppended(View(), d, conf);
      match d
      case DeploymentDoc(meta, pods) => AddDeployment(meta, pods, conf);
      case ReplicaSetDoc(meta, pods) => AddReplicaSet(meta, pods, conf);
      case StatefulSetDoc(meta, pods, templates) =>
        var claims := BuildClaims(templates);
        AddStatefulSet(meta, pods, conf);
        AddClaims(claims);
    }

    method LoadOther(d: Document, conf: Config)
      requires Valid() && (d.HpaDoc? || d.DaemonSetDoc? || d.VolumeClaimDoc?)
      modifies this
      ensures Valid() && View() == old(View()).Append(LoadOne(d, conf))
      ensures Objects() == old(Objects())
    {
      hide Registry.Valid, Specs, Apart, LoadOne, Loaded.Append, HpaOf, ClaimOf, DaemonSetOf;
      OneAppended(View(), d, conf);
      match d
      case HpaDoc(h) =>
        var hpa := BuildHPA(h);
        hpas := hpas + [hpa];
      case DaemonSetDoc(meta, cont) =>
        var daemonSet := BuildDaemonSet(meta, cont, conf);
        daemonSets := daemonSets + [daemonSet];
      case VolumeClaimDoc(meta, spec) =>
        var claim := BuildClaim(meta, spec);
        AddClaims([claim]);
    }

    /** Loads one decoded document; false means that it does not decode. */
    method LoadObject(d: Document, conf: Config) returns (ok: bool)
      requires Valid()
      modifies this, deployments, replicaSets, statefulSets
      ensures Valid()
      ensures ok <==> !d.Malformed?
      ensures View() == old(View()).Append(LoadOne(d, conf))
      ensures forall w :: w in Objects() ==> w in old(Objects()) || fresh(w)
    {
      hide Objects, View, LoadOne, Loaded.Append;
      OneAppended(View(), d, conf);
      match d
      case Unsupported => ok := true;
      case Malformed => ok := false;
      case HpaDoc(_) => LoadOther(d, conf); ok := true;
      case DeploymentDoc(_, _) => LoadWorkload(d, conf); ok := true;
      case ReplicaSetDoc(_, _) => LoadWorkload(d, conf); ok := true;
      case StatefulSetDoc(_, _, _) => LoadWorkload(d, conf); ok := true;
      case DaemonSetDoc(_, _) => LoadOther(d, conf); ok := true;
      case VolumeClaimDoc(_, _) => LoadOther(d, conf); ok := true;
    }

    /** Loads the documents of a file until one does not decode; those before it stay loaded. */
    method LoadObjects(data: string, decode: string -> Document, conf: Config) returns (ok: bool)
      requires Valid()
      modifies this, deployments, replicaSets, statefulSets
      ensures Valid()
      ensures ok <==> Malformed !in Map(Split(data), decode)
      ensures View() == old(View()).Append(LoadAll(BeforeMalformed(Map(Split(data), decode)), conf))
      ensures forall w :: w in Objects() ==> w in old(Objects()) || fresh(w)
    {
      hide Objects, View, Valid, LoadOne, Loaded.Append, LoadAll, Split, BeforeMalformed;
      LoadNothing(View(), conf);
      var objects := Split(data);
      ghost var docs := Map(objects, decode);
      for i := 0 to |objects|
        invariant Valid()
        invariant Malformed !in docs[..i]
        invariant View() == old(View()).Append(LoadAll(docs[..i], conf))
        invariant forall w :: w in Objects() ==> w in old(Objects()) || fresh(w)
      {
        LoadStep(old(View()), docs, i, conf);
        MalformedAddsNothing(View(), docs[i], conf);
        var loaded := LoadObject(decode(objects[i]), conf);
        if !loaded {
          GoodUntil(docs, i);
          return false;
        }
      }
      assert docs[..|objects|] == docs;
      AllGood(docs);
      return true;
    }

    /** Loads the YAML files of a directory walk until one cannot be read or decoded. */
    method LoadObjectsFromPath(walk: seq<PathEntry>, decode: string -> Document, conf: Config) returns (ok: bool)
      requires Valid()
      modifies this, deployments, replicaSets, statefulSets
      ensures Valid()
      ensures ok <==> Malformed !in DocumentsAt(walk, decode)
      ensures View() == old(View()).Append(LoadAll(BeforeMalformed(DocumentsAt(walk, decode)), conf))
      ensures forall w :: w in Objects() ==> w in old(Objects()) || fresh(w)
    {
      hide Objects, View, Valid, Loaded.Append, LoadAll, DocumentsAt, DocumentsOf, BeforeMalformed;
      LoadNothing(View(), conf);
      ghost var seen: seq<Document> := [];
      assert walk[0..] == walk;
      for i := 0 to |walk|
        invariant Valid()
        invariant Malformed !in seen && seen + DocumentsAt(walk[i..], decode) == DocumentsAt(walk, decode)
        invariant View() == old(View()).Append(LoadAll(seen, conf))
        invariant forall w :: w in Objects() ==> w in old(Objects()) || fresh(w)
      {
        ghost var more := DocumentsOf(walk[i], decode);
        NextFile(walk, i, decode, seen);
        LoadMore(old(View()), seen, more, conf);
        if IsYaml(walk[i]) {
          var loaded := LoadFile(walk[i].data, decode, conf);
          if !loaded {
            GoodAppend(seen, more, DocumentsAt(walk[i + 1..], decode));
            return false;
          }
        } else {
          NotLoaded(walk[i], decode, View(), conf);
        }
        seen := seen + more;
      }
      NoFiles(walk, decode);
      assert seen + [] == seen;
      AllGood(seen);
      return true;
    }

    /** One file, which may turn out to be unreadable. */
    method LoadFile(data: Option<string>, decode: string -> Document, conf: Config) returns (ok: bool)
      requires Valid()
      modifies this, deployments, replicaSets, statefulSets
      ensures Valid()
      ensures ok <==> Malformed !in DocumentsIn(data, decode)
      ensures View() == old(View()).Append(LoadAll(BeforeMalformed(DocumentsIn(data, decode)), conf))
      ensures forall w :: w in Objects() ==> w in old(Objects()) || fresh(w)
    {
      hide Objects, View, Valid, Loaded.Append;
      if data.None? {
        LoadNothing(View(), conf);
        return false;
      }
      ok := LoadObjects(data.value, decode, conf);
    }

    /** The body of the linking loop. */
    method LinkKinds(hpa: HPA)
      requires Valid()
      modifies deployments.list, replicaSets.list, statefulSets.list
      ensures Valid() && View() == Linked(old(View()), hpa)
      ensures unchanged(this)
    {
      hide View, Valid, LinkOne;
      LinkDeployments(hpa);
      LinkReplicaSets(hpa);
      LinkStatefulSets(hpa);
    }

    method LinkDeployments(hpa: HPA)
      requires Valid()
      modifies deployments.list
      ensures Valid() && View() == old(View()).(deployments := LinkOne(old(View()).deployments, hpa))
      ensures unchanged(this) && unchanged(deployments) && unchanged(replicaSets) && unchanged(statefulSets)
    {
      hide Registry.Valid, LinkOne, Specs;
      deployments.Link(hpa);
    }

    method LinkReplicaSets(hpa: HPA)
      requires Valid()
      modifies replicaSets.list
      ensures Valid() && View() == old(View()).(replicaSets := LinkOne(old(View()).replicaSets, hpa))
      ensures unchanged(this) && unchanged(deployments) && unchanged(replicaSets) && unchanged(statefulSets)
    {
      hide Registry.Valid, LinkOne, Specs;
      replicaSets.Link(hpa);
    }

    method LinkStatefulSets(hpa: HPA)
      requires Valid()
      modifies statefulSets.list
      ensures Valid() && View() == old(View()).(statefulSets := LinkOne(old(View()).statefulSets, hpa))
      ensures unchanged(this) && unchanged(deployments) && unchanged(replicaSets) && unchanged(statefulSets)
    {
      hide Registry.Valid, LinkOne, Specs;
      statefulSets.Link(hpa);
    }

    /** Links every autoscaler to the workload its target names, in each kind. */
    method PrepareForCostEstimation()
      requires Valid()
      modifies deployments.list, replicaSets.list, statefulSets.list
      ensures Valid() && View() == Prepared(old(View()))
    {
      hide Registry.Valid, Specs, Apart, Linked;
      ghost var before := View();
      for i := 0 to |hpas|
        invariant Valid()
        invariant View() == PreparedUpTo(before, i)
      {
        LinkKinds(hpas[i]);
        PreparedStep(before, i);
      }
      assert hpas[..|hpas|] == hpas;
    }

    method EstimateDaemonSets(p: Prices) returns (ranges: seq<CostRange>)
      ensures ranges == KindRange(DAEMON_SET, DaemonSetCosts(daemonSets, p))
    {
      if |daemonSets| == 0 {
        return [];
      }
      var range := Zero(DAEMON_SET);
      ghost var costs := DaemonSetCosts(daemonSets, p);
      for i := 0 to |daemonSets|
        invariant range == Sum(DAEMON_SET, costs[..i])
      {
        assert DropLast(costs[..i + 1]) == costs[..i];
        var cost := EstimateDaemonSet(daemonSets[i], p);
        range := range.Add(cost);
      }
      assert costs[..|daemonSets|] == costs;
      return [range];
    }

    method EstimateVolumeClaims(p: Prices) returns (ranges: seq<CostRange>)
      ensures ranges == KindRange(VOLUME_CLAIM, ClaimCosts(volumeClaims, p))
    {
      if |volumeClaims| == 0 {
        return [];
      }
      var range := Zero(VOLUME_CLAIM);
      ghost var costs := ClaimCosts(volumeClaims, p);
      for i := 0 to |volumeClaims|
        invariant range == Sum(VOLUME_CLAIM, costs[..i])
      {
        assert DropLast(costs[..i + 1]) == costs[..i];
        var cost := EstimateVolumeClaim(volumeClaims[i], p);
        range := range.Add(cost);
      }
      assert costs[..|volumeClaims|] == costs;
      return [range];
    }

    /** Links the autoscalers, then groups the costs by kind. */
    method EstimateCost(p: Prices) returns (monthlyRanges: seq<CostRange>)
      requires Valid()
      modifies deployments.list, replicaSets.list, statefulSets.list
      ensures Valid() && View() == Prepared(old(View()))
      ensures monthlyRanges == Estimate(old(View()), p)
    {
      hide View, Valid, Prepared, Ranges;
      PrepareForCostEstimation();
      monthlyRanges := EstimateKinds(p);
    }

    method EstimateKinds(p: Prices) returns (monthlyRanges: seq<CostRange>)
      requires Valid()
      ensures monthlyRanges == Ranges(View(), p)
    {
      hide Registry.Valid, Specs, Apart, WorkloadCosts, DaemonSetCosts, ClaimCosts, KindRange;
      var deploymentRange := deployments.EstimateCost(p);
      var replicaSetRange := replicaSets.EstimateCost(p);
      var statefulSetRange := statefulSets.EstimateCost(p);
      var daemonSetRange := EstimateDaemonSets(p);
      var volumeClaimRange := EstimateVolumeClaims(p);
      monthlyRanges := deploymentRange + replicaSetRange + statefulSetRange + daemonSetRange + volumeClaimRange;
    }
  }

  /** The whole estimate of a path: load its files, then price them. A file or
      document that fails ends the program before any price is given. */
  method EstimatePath(walk: seq<PathEntry>, decode: string -> Document, conf: Config, p: Prices)
    returns (ok: bool, monthlyRanges: seq<CostRange>)
    ensures ok <==> Malformed !in DocumentsAt(walk, decode)
    ensures ok ==> monthlyRanges == Estimate(LoadAll(DocumentsAt(walk, decode), conf), p)
    ensures !ok ==> monthlyRanges == []
  {
    hide Manifests.View, Manifests.Valid, LoadAll, Estimate, Loaded.Append, DocumentsAt, BeforeMalformed;
    var manifests := new Manifests();
    ok := manifests.LoadObjectsFromPath(walk, decode, conf);
    monthlyRanges := [];
    if ok {
      AllGood(DocumentsAt(walk, decode));
      manifests.ObjectsListed();
      assert forall k :: 0 <= k < |manifests.deployments.list| ==> fresh(manifests.deployments.list[k]);
      assert forall k :: 0 <= k < |manifests.replicaSets.list| ==> fresh(manifests.replicaSets.list[k]);
      assert forall k :: 0 <= k < |manifests.statefulSets.list| ==> fresh(manifests.statefulSets.list[k]);
      NothingAppended(LoadAll(DocumentsAt(walk, decode), conf));
      monthlyRanges := manifests.EstimateCost(p);
    }
  }

  lemma NothingAppended(l: Loaded)
    ensures NOTHING.Append(l) == l
  {
  }

  /** Loading documents joined into one file is loading them one after the other. */
  lemma JoinedFileLoadsEach(texts: seq<string>, decode: string -> Document, conf: Config)
    requires texts != [] && Separable(texts)
    ensures LoadAll(Map(Split(Join(texts)), decode), conf) == LoadAll(Map(texts, decode), conf)
  {
    SplitOfJoinIff(texts);
  }
}
