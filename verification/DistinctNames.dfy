/** Documents with distinct names give unambiguous references. */
module DistinctNames {
  import opened Collections
  import opened Workloads
  import opened Defaults
  import opened Keys
  import opened Linking
  import opened Loading
  import opened DocumentOrder

  /** The namespace and name of a workload document, and which list it goes to. */
  function WorkloadId(d: Document): Option<(string, string, string)> {
    match d
    case DeploymentDoc(m, _) => Some((DEPLOYMENT, Namespace(m.namespace), m.name))
    case ReplicaSetDoc(m, _) => Some((REPLICA_SET, Namespace(m.namespace), m.name))
    case StatefulSetDoc(m, _, _) => Some((STATEFUL_SET, Namespace(m.namespace), m.name))
    case _ => None
  }

  /** No two workloads of a kind have the same namespace and name. */
  ghost predicate DistinctlyNamed(docs: seq<Document>) {
    forall i, j :: 0 <= i < j < |docs| && WorkloadId(docs[i]).Some? ==> WorkloadId(docs[i]) != WorkloadId(docs[j])
  }

  /** API versions and namespaces hold no '|'. */
  predicate PlainDocument(d: Document) {
    match d
    case DeploymentDoc(m, _) => Plain(m.apiVersion) && Plain(m.namespace)
    case ReplicaSetDoc(m, _) => Plain(m.apiVersion) && Plain(m.namespace)
    case StatefulSetDoc(m, _, _) => Plain(m.apiVersion) && Plain(m.namespace)
    case _ => true
  }

  function KindNameFor(kind: string, ns: string, name: string): string {
    BuildAPIVersionKindName("", kind, ns, name)
  }

  /** The kind names of the workloads of one kind among the documents, in order. */
  function IdsOf(kind: string, docs: seq<Document>): seq<string> {
    if docs == [] then [] else IdsOf(kind, DropLast(docs)) + IdIn(kind, Last(docs))
  }

  lemma NamespaceTwice(ns: string)
    ensures Namespace(Namespace(ns)) == Namespace(ns)
    ensures Plain(ns) ==> Plain(Namespace(ns))
  {
  }

  lemma SpecKindName(kind: string, m: ObjectMeta, pods: PodTemplate, conf: Config)
    requires Plain(m.apiVersion)
    ensures BuildKindName(SpecOf(kind, m, pods, conf).key) == KindNameFor(kind, Namespace(m.namespace), m.name)
  {
    KindNameDropsVersion(m.apiVersion, kind, m.namespace, m.name);
    NamespaceTwice(m.namespace);
  }

  lemma KindNamesAppend(a: seq<WorkloadSpec>, b: seq<WorkloadSpec>)
    ensures KindNames(a + b) == KindNames(a) + KindNames(b)
  {
  }

  /** The kind name a document contributes to the list of `kind`. */
  function IdIn(kind: string, d: Document): seq<string> {
    var id := WorkloadId(d);
    if id.Some? && id.value.0 == kind then [KindNameFor(kind, id.value.1, id.value.2)] else []
  }

  lemma OneKindName(d: Document, conf: Config)
    requires PlainDocument(d)
    ensures var l := LoadOne(d, conf);
            && KindNames(l.deployments) == IdIn(DEPLOYMENT, d)
            && KindNames(l.replicaSets) == IdIn(REPLICA_SET, d)
            && KindNames(l.statefulSets) == IdIn(STATEFUL_SET, d)
  {
    match d
    case DeploymentDoc(m, pods) => SpecKindName(DEPLOYMENT, m, pods, conf);
    case ReplicaSetDoc(m, pods) => SpecKindName(REPLICA_SET, m, pods, conf);
    case StatefulSetDoc(m, pods, _) => SpecKindName(STATEFUL_SET, m, pods, conf);
    case _ =>
  }

  lemma {:induction false} LoadedKindNames(docs: seq<Document>, conf: Config)
    requires forall d :: d in docs ==> PlainDocument(d)
    ensures var l := LoadAll(docs, conf);
            && KindNames(l.deployments) == IdsOf(DEPLOYMENT, docs)
            && KindNames(l.replicaSets) == IdsOf(REPLICA_SET, docs)
            && KindNames(l.statefulSets) == IdsOf(STATEFUL_SET, docs)
  {
    if docs != [] {
      hide LoadOne, IdIn, KindNames;
      LoadedKindNames(DropLast(docs), conf);
      assert PlainDocument(Last(docs));
      OneKindName(Last(docs), conf);
      var before, more := LoadAll(DropLast(docs), conf), LoadOne(Last(docs), conf);
      KindNamesAppend(before.deployments, more.deployments);
      KindNamesAppend(before.replicaSets, more.replicaSets);
      KindNamesAppend(before.statefulSets, more.statefulSets);
    } else {
      KindNamesEmpty();
    }
  }

  lemma KindNamesEmpty()
    ensures KindNames([]) == []
  {
  }

  /** The document is a workload of the kind, and the kind name is its own. */
  predicate PlainId(d: Document, kind: string, kindName: string) {
    && WorkloadId(d).Some? && WorkloadId(d).value.0 == kind
    && KindNameFor(kind, WorkloadId(d).value.1, WorkloadId(d).value.2) == kindName
    && Plain(WorkloadId(d).value.1)
  }

  lemma {:induction false} IdsFromDocuments(kind: string, docs: seq<Document>, id: string)
    requires (forall d :: d in docs ==> PlainDocument(d)) && id in IdsOf(kind, docs)
    ensures exists k :: 0 <= k < |docs| && PlainId(docs[k], kind, id)
  {
    assert PlainDocument(Last(docs));
    if id in IdIn(kind, Last(docs)) {
      assert PlainId(docs[|docs| - 1], kind, id);
    } else {
      assert id in IdsOf(kind, DropLast(docs));
      IdsFromDocuments(kind, DropLast(docs), id);
      var k :| 0 <= k < |docs| - 1 && PlainId(DropLast(docs)[k], kind, id);
      assert DropLast(docs)[k] == docs[k];
    }
  }

  lemma SameKindNameSameId(kind: string, ns: string, name: string, ns': string, name': string)
    requires Plain(kind) && Plain(ns) && Plain(ns') && KindNameFor(kind, ns, name) == KindNameFor(kind, ns', name')
    ensures Namespace(ns) == Namespace(ns') && name == name'
  {
    KeyInjective("", kind, ns, name, "", kind, ns', name');
  }

  lemma PlainNamespace(d: Document)
    requires PlainDocument(d) && WorkloadId(d).Some?
    ensures Plain(WorkloadId(d).value.1) && Namespace(WorkloadId(d).value.1) == WorkloadId(d).value.1
  {
  }

  /** The last document's kind name is not among the earlier ones. */
  lemma LastIdIsNew(kind: string, docs: seq<Document>, id: string)
    requires Plain(kind) && DistinctlyNamed(docs) && (forall d :: d in docs ==> PlainDocument(d))
    requires docs != [] && id in IdIn(kind, Last(docs))
    ensures id !in IdsOf(kind, DropLast(docs))
  {
    hide IdsOf, KindNameFor, WorkloadId;
    if id in IdsOf(kind, DropLast(docs)) {
      IdsFromDocuments(kind, DropLast(docs), id);
      var k :| 0 <= k < |docs| - 1 && PlainId(DropLast(docs)[k], kind, id);
      assert PlainDocument(Last(docs));
      assert DropLast(docs)[k] in docs && PlainDocument(docs[k]);
      PlainNamespace(docs[k]);
      PlainNamespace(Last(docs));
      var a, b := WorkloadId(docs[k]).value, WorkloadId(Last(docs)).value;
      SameKindNameSameId(kind, a.1, a.2, b.1, b.2);
    }
  }

  lemma {:induction false} DistinctIds(kind: string, docs: seq<Document>)
    requires Plain(kind) && DistinctlyNamed(docs) && forall d :: d in docs ==> PlainDocument(d)
    ensures Distinct(IdsOf(kind, docs))
  {
    if docs != [] {
      hide PlainDocument;
      DistinctIds(kind, DropLast(docs));
      if IdIn(kind, Last(docs)) != [] {
        LastIdIsNew(kind, docs, IdIn(kind, Last(docs))[0]);
      }
    }
  }

  lemma ListedKindNames(docs: seq<Document>, conf: Config, kind: string)
    requires (forall d :: d in docs ==> PlainDocument(d)) && WorkloadKind(kind)
    ensures KindNames(ListOf(LoadAll(docs, conf), kind)) == IdsOf(kind, docs) && Plain(kind)
  {
    hide LoadAll, IdsOf, KindNames;
    LoadedKindNames(docs, conf);
  }

  lemma KindNameListed(ws: seq<WorkloadSpec>, i: nat)
    requires i < |ws|
    ensures BuildKindName(ws[i].key) in KindNames(ws)
  {
    assert KindNames(ws)[i] == BuildKindName(ws[i].key);
  }

  lemma KindNameOfOneKind(docs: seq<Document>, id: string, kind: string, other: string)
    requires (forall d :: d in docs ==> PlainDocument(d)) && Plain(kind) && Plain(other)
    requires id in IdsOf(kind, docs) && id in IdsOf(other, docs)
    ensures kind == other
  {
    hide IdsOf;
    IdsFromDocuments(kind, docs, id);
    IdsFromDocuments(other, docs, id);
    var x :| 0 <= x < |docs| && PlainId(docs[x], kind, id);
    var y :| 0 <= y < |docs| && PlainId(docs[y], other, id);
    KeyInjective("", kind, WorkloadId(docs[x]).value.1, WorkloadId(docs[x]).value.2,
                 "", other, WorkloadId(docs[y]).value.1, WorkloadId(docs[y]).value.2);
  }

  /** No reference resolves in more than one of the three maps. */
  lemma ResolvesInOneMap(docs: seq<Document>, conf: Config, ref: string, kind: string, other: string)
    requires forall d :: d in docs ==> PlainDocument(d)
    requires WorkloadKind(kind) && WorkloadKind(other)
    requires Latest(KeysOf(ListOf(LoadAll(docs, conf), kind)), ref) >= 0
    requires Latest(KeysOf(ListOf(LoadAll(docs, conf), other)), ref) >= 0
    ensures kind == other
  {
    hide LoadAll, IdsOf, KindNames, Names;
    var a, b := ListOf(LoadAll(docs, conf), kind), ListOf(LoadAll(docs, conf), other);
    NamesDetermineKindName(a[Latest(KeysOf(a), ref)].key, b[Latest(KeysOf(b), ref)].key, ref);
    ListedKindNames(docs, conf, kind);
    ListedKindNames(docs, conf, other);
    var id := BuildKindName(a[Latest(KeysOf(a), ref)].key);
    KindNameListed(a, Latest(KeysOf(a), ref));
    KindNameListed(b, Latest(KeysOf(b), ref));
    KindNameOfOneKind(docs, id, kind, other);
  }

  /** No workload among the loaded ones is named by two different autoscalers. */
  ghost predicate NoSharedTarget(l: Loaded) {
    forall w :: w in l.deployments + l.replicaSets + l.statefulSets ==> NamedOnce(w, l.hpas)
  }

  lemma DistinctUnambiguous(ws: seq<WorkloadSpec>, hpas: seq<HPA>)
    requires Distinct(KindNames(ws)) && forall w :: w in ws ==> NamedOnce(w, hpas)
    ensures Unambiguous(ws, hpas)
  {
    forall h | h in hpas ensures NamesOne(h.targetRef, ws) {
      DistinctNamesOne(ws, h.targetRef);
    }
  }

  /** Workloads of a kind having distinct namespaces and names, and no two
      autoscalers resolving to one workload, no reference is ambiguous. */
  lemma DistinctNamesAreUnambiguous(docs: seq<Document>, conf: Config)
    requires DistinctlyNamed(docs) && (forall d :: d in docs ==> PlainDocument(d))
    requires NoSharedTarget(LoadAll(docs, conf))
    ensures AllUnambiguous(LoadAll(docs, conf))
  {
    hide LoadAll, IdsOf, KindNames, NamedOnce, Unambiguous;
    var l := LoadAll(docs, conf);
    LoadedKindNames(docs, conf);
    DistinctIds(DEPLOYMENT, docs);
    DistinctIds(REPLICA_SET, docs);
    DistinctIds(STATEFUL_SET, docs);
    DistinctUnambiguous(l.deployments, l.hpas);
    DistinctUnambiguous(l.replicaSets, l.hpas);
    DistinctUnambiguous(l.statefulSets, l.hpas);
  }
}
