/** What the loaded objects cost, by kind, in total, and document by document. */
module Estimates {
  import opened Collections
  import opened Costs
  import opened Workloads
  import opened Defaults
  import opened Autoscalers
  import opened Linking
  import opened Loading

  function WorkloadCosts(kind: string, ws: seq<WorkloadSpec>, p: Prices): seq<CostRange> {
    Map(ws, (w: WorkloadSpec) => WorkloadCost(kind, w.containers, w.replicas, w.hpa, p))
  }

  function DaemonSetCosts(ds: seq<DaemonSet>, p: Prices): seq<CostRange> {
    Map(ds, (d: DaemonSet) => DaemonSetCost(d, p))
  }

  function ClaimCosts(vs: seq<VolumeClaim>, p: Prices): seq<CostRange> {
    Map(vs, (v: VolumeClaim) => VolumeClaimCost(v, p))
  }

  function Prepared(l: Loaded): Loaded {
    l.(deployments := LinkAll(l.deployments, l.hpas),
       replicaSets := LinkAll(l.replicaSets, l.hpas),
       statefulSets := LinkAll(l.statefulSets, l.hpas))
  }

  /** The range of a kind, which is left out when nothing of the kind is loaded. */
  function KindRange(kind: string, costs: seq<CostRange>): seq<CostRange> {
    if costs == [] then [] else [Sum(kind, costs)]
  }

  function Ranges(l: Loaded, p: Prices): seq<CostRange> {
    KindRange(DEPLOYMENT, WorkloadCosts(DEPLOYMENT, l.deployments, p))
    + KindRange(REPLICA_SET, WorkloadCosts(REPLICA_SET, l.replicaSets, p))
    + KindRange(STATEFUL_SET, WorkloadCosts(STATEFUL_SET, l.statefulSets, p))
    + KindRange(DAEMON_SET, DaemonSetCosts(l.daemonSets, p))
    + KindRange(VOLUME_CLAIM, ClaimCosts(l.volumeClaims, p))
  }

  function Estimate(l: Loaded, p: Prices): seq<CostRange> {
    Ranges(Prepared(l), p)
  }

  /** Every object's own cost, ungrouped. */
  function FlatCosts(l: Loaded, p: Prices): seq<CostRange> {
    WorkloadCosts(DEPLOYMENT, l.deployments, p)
    + WorkloadCosts(REPLICA_SET, l.replicaSets, p)
    + WorkloadCosts(STATEFUL_SET, l.statefulSets, p)
    + DaemonSetCosts(l.daemonSets, p)
    + ClaimCosts(l.volumeClaims, p)
  }

  // ----- Conservation -----

  lemma SumOfKindRange(title: string, kind: string, costs: seq<CostRange>)
    ensures Sum(title, KindRange(kind, costs)) == Sum(title, costs)
  {
    if costs != [] {
      var s := Sum(kind, costs);
      assert DropLast([s]) == [] && Last([s]) == s;
      SumKind(kind, title, costs);
    }
  }

  /** The total of the kinds is the flat sum over the single objects, in every column. */
  lemma TotalIsFlatSum(title: string, l: Loaded, p: Prices)
    ensures Sum(title, Ranges(l, p)) == Sum(title, FlatCosts(l, p))
  {
    var c1, c2 := WorkloadCosts(DEPLOYMENT, l.deployments, p), WorkloadCosts(REPLICA_SET, l.replicaSets, p);
    var c3, c4 := WorkloadCosts(STATEFUL_SET, l.statefulSets, p), DaemonSetCosts(l.daemonSets, p);
    var c5 := ClaimCosts(l.volumeClaims, p);
    var r1, r2, r3 := KindRange(DEPLOYMENT, c1), KindRange(REPLICA_SET, c2), KindRange(STATEFUL_SET, c3);
    var r4, r5 := KindRange(DAEMON_SET, c4), KindRange(VOLUME_CLAIM, c5);
    SumOfKindRange(title, DEPLOYMENT, c1);
    SumOfKindRange(title, REPLICA_SET, c2);
    SumOfKindRange(title, STATEFUL_SET, c3);
    SumOfKindRange(title, DAEMON_SET, c4);
    SumOfKindRange(title, VOLUME_CLAIM, c5);
    FiveSums(title, r1, r2, r3, r4, r5);
    FiveSums(title, c1, c2, c3, c4, c5);
  }

  lemma FiveSums(title: string, a: seq<CostRange>, b: seq<CostRange>, c: seq<CostRange>,
                 d: seq<CostRange>, e: seq<CostRange>)
    ensures Sum(title, a + b + c + d + e)
         == Sum(title, a).Add(Sum(title, b)).Add(Sum(title, c)).Add(Sum(title, d)).Add(Sum(title, e))
  {
    SumAppend(title, a, b);
    SumAppend(title, a + b, c);
    SumAppend(title, a + b + c, d);
    SumAppend(title, a + b + c + d, e);
  }

  // ----- The share of each document -----

  /** The autoscaler that document k, a workload of the kind, ends up with: the
      last one whose reference finds its entry of the reference map. */
  function AutoscalerOf(docs: seq<Document>, k: nat, kind: string, conf: Config): HPA
    requires k < |docs| && WorkloadKind(kind)
  {
    var l, earlier := LoadAll(docs, conf), LoadAll(docs[..k], conf);
    Assigned(KeysOf(ListOf(l, kind)), l.hpas, |ListOf(earlier, kind)|, NO_HPA)
  }

  function PodsCost(kind: string, pods: PodTemplate, hpa: HPA, conf: Config, p: Prices): CostRange {
    WorkloadCost(kind, BuiltAll(pods.containers, Populated(conf)), GetOr(pods.replicas, 1), hpa, p)
  }

  /** What document k costs: its pods under its autoscaler, and each claim template once. */
  function DocumentCosts(docs: seq<Document>, k: nat, conf: Config, p: Prices): seq<CostRange>
    requires k < |docs|
  {
    match docs[k]
    case DeploymentDoc(_, pods) =>
      [PodsCost(DEPLOYMENT, pods, AutoscalerOf(docs, k, DEPLOYMENT, conf), conf, p)]
    case ReplicaSetDoc(_, pods) =>
      [PodsCost(REPLICA_SET, pods, AutoscalerOf(docs, k, REPLICA_SET, conf), conf, p)]
    case StatefulSetDoc(_, pods, templates) =>
      [PodsCost(STATEFUL_SET, pods, AutoscalerOf(docs, k, STATEFUL_SET, conf), conf, p)]
      + seq(|templates|, i requires 0 <= i < |templates| =>
              VolumeClaimCost(ClaimOf(templates[i].meta, templates[i].spec), p))
    case DaemonSetDoc(m, containers) => [DaemonSetCost(DaemonSetOf(m, containers, conf), p)]
    case VolumeClaimDoc(m, spec) => [VolumeClaimCost(ClaimOf(m, spec), p)]
    case _ => []
  }

  /** The costs of the first n documents, one document after the other. */
  function CostsOfFirst(docs: seq<Document>, n: nat, conf: Config, p: Prices): seq<CostRange>
    requires n <= |docs|
  {
    if n == 0 then [] else CostsOfFirst(docs, n - 1, conf, p) + DocumentCosts(docs, n - 1, conf, p)
  }

  /** The objects of document k as they are after linking. */
  function Share(docs: seq<Document>, k: nat, conf: Config): Loaded
    requires k < |docs|
  {
    var one := LoadOne(docs[k], conf);
    one.(deployments := LinkedShare(docs, k, DEPLOYMENT, conf),
         replicaSets := LinkedShare(docs, k, REPLICA_SET, conf),
         statefulSets := LinkedShare(docs, k, STATEFUL_SET, conf))
  }

  function LinkedShare(docs: seq<Document>, k: nat, kind: string, conf: Config): seq<WorkloadSpec>
    requires k < |docs| && WorkloadKind(kind)
  {
    var one := ListOf(LoadOne(docs[k], conf), kind);
    if one == [] then [] else [one[0].(hpa := AutoscalerOf(docs, k, kind, conf))]
  }

  function SharesOfFirst(docs: seq<Document>, n: nat, conf: Config): Loaded
    requires n <= |docs|
  {
    if n == 0 then NOTHING else SharesOfFirst(docs, n - 1, conf).Append(Share(docs, n - 1, conf))
  }

  lemma AtMostOneWorkload(d: Document, conf: Config, kind: string)
    requires WorkloadKind(kind)
    ensures |ListOf(LoadOne(d, conf), kind)| <= 1
    ensures forall w :: w in ListOf(LoadOne(d, conf), kind) ==> w.hpa == NO_HPA
  {
  }

  lemma LinkedNext(ws: seq<WorkloadSpec>, hpas: seq<HPA>, a: nat)
    requires a < |ws| && ws[a].hpa == NO_HPA
    ensures LinkAll(ws, hpas)[..a + 1]
         == LinkAll(ws, hpas)[..a] + [ws[a].(hpa := Assigned(KeysOf(ws), hpas, a, NO_HPA))]
  {
    LinkAllAssigns(ws, hpas, a);
  }

  lemma LinkedSlice(ws: seq<WorkloadSpec>, hpas: seq<HPA>, before: seq<WorkloadSpec>, one: seq<WorkloadSpec>,
                    after: seq<WorkloadSpec>)
    requires ws == before + one + after && |one| <= 1 && forall w :: w in one ==> w.hpa == NO_HPA
    ensures |before| + |one| <= |ws|
    ensures LinkAll(ws, hpas)[..|before| + |one|]
         == LinkAll(ws, hpas)[..|before|]
            + if one == [] then [] else [one[0].(hpa := Assigned(KeysOf(ws), hpas, |before|, NO_HPA))]
  {
    hide LinkAll, Assigned, KeysOf;
    if one != [] {
      assert ws[|before|] == one[0] && one[0] in one;
      LinkedNext(ws, hpas, |before|);
    }
  }

  /** Linking gives the workload of document k its autoscaler and no other. */
  lemma ShareIsLinked(docs: seq<Document>, k: nat, kind: string, conf: Config)
    requires k < |docs| && WorkloadKind(kind)
    ensures var linked := ListOf(Prepared(LoadAll(docs, conf)), kind);
            var a, b := |ListOf(LoadAll(docs[..k], conf), kind)|, |ListOf(LoadAll(docs[..k + 1], conf), kind)|;
            a <= b <= |linked| && linked[..b] == linked[..a] + LinkedShare(docs, k, kind, conf)
  {
    hide LoadAll, LoadOne, LinkAll, Prepared, ListOf, KeysOf, Assigned;
    ListsSplit(docs, k, conf, kind);
    AtMostOneWorkload(docs[k], conf, kind);
    PreparedList(LoadAll(docs, conf), kind);
    LinkedSlice(ListOf(LoadAll(docs, conf), kind), LoadAll(docs, conf).hpas, ListOf(LoadAll(docs[..k], conf), kind),
                ListOf(LoadOne(docs[k], conf), kind), ListOf(LoadAll(docs[k + 1..], conf), kind));
  }

  lemma PreparedList(l: Loaded, kind: string)
    requires WorkloadKind(kind)
    ensures ListOf(Prepared(l), kind) == LinkAll(ListOf(l, kind), l.hpas)
  {
  }

  lemma ListsAppended(docs: seq<Document>, n: nat, kind: string, conf: Config)
    requires 0 < n <= |docs| && WorkloadKind(kind)
    ensures ListOf(SharesOfFirst(docs, n, conf), kind)
         == ListOf(SharesOfFirst(docs, n - 1, conf), kind) + LinkedShare(docs, n - 1, kind, conf)
  {
    hide LinkedShare, LoadOne;
  }

  ghost predicate ShareLinked(docs: seq<Document>, n: nat, kind: string, conf: Config)
    requires n <= |docs| && WorkloadKind(kind)
  {
    var linked := ListOf(Prepared(LoadAll(docs, conf)), kind);
    var a := |ListOf(LoadAll(docs[..n], conf), kind)|;
    a <= |linked| && ListOf(SharesOfFirst(docs, n, conf), kind) == linked[..a]
  }

  lemma NoShareLinked(docs: seq<Document>, kind: string, conf: Config)
    requires WorkloadKind(kind)
    ensures ShareLinked(docs, 0, kind, conf)
  {
    hide Prepared;
    assert ListOf(NOTHING, kind) == [];
  }

  lemma NextShareLinked(docs: seq<Document>, n: nat, kind: string, conf: Config)
    requires 0 < n <= |docs| && WorkloadKind(kind)
    requires ShareLinked(docs, n - 1, kind, conf)
    ensures ShareLinked(docs, n, kind, conf)
  {
    hide LoadAll, ListOf, Prepared, SharesOfFirst, LinkedShare;
    ListsAppended(docs, n, kind, conf);
    ShareIsLinked(docs, n - 1, kind, conf);
  }

  lemma {:induction false} SharesAreLinked(docs: seq<Document>, n: nat, kind: string, conf: Config)
    requires n <= |docs| && WorkloadKind(kind)
    ensures ShareLinked(docs, n, kind, conf)
  {
    hide ShareLinked;
    if n == 0 {
      NoShareLinked(docs, kind, conf);
    } else {
      SharesAreLinked(docs, n - 1, kind, conf);
      NextShareLinked(docs, n, kind, conf);
    }
  }

  lemma OthersAppended(docs: seq<Document>, n: nat, conf: Config)
    requires 0 < n <= |docs|
    ensures var s, t, one := SharesOfFirst(docs, n, conf), SharesOfFirst(docs, n - 1, conf), LoadOne(docs[n - 1], conf);
            s.daemonSets == t.daemonSets + one.daemonSets && s.volumeClaims == t.volumeClaims + one.volumeClaims
  {
    hide LoadOne, LinkedShare;
  }

  ghost predicate OthersShared(docs: seq<Document>, n: nat, conf: Config)
    requires n <= |docs|
  {
    var s, l := SharesOfFirst(docs, n, conf), LoadAll(docs[..n], conf);
    s.daemonSets == l.daemonSets && s.volumeClaims == l.volumeClaims
  }

  lemma NextOthersShared(docs: seq<Document>, n: nat, conf: Config)
    requires 0 < n <= |docs| && OthersShared(docs, n - 1, conf)
    ensures OthersShared(docs, n, conf)
  {
    hide LoadAll, LoadOne, SharesOfFirst;
    OthersSplit(docs, n - 1, conf);
    OthersAppended(docs, n, conf);
  }

  lemma {:induction false} OtherShares(docs: seq<Document>, n: nat, conf: Config)
    requires n <= |docs|
    ensures OthersShared(docs, n, conf)
  {
    if n > 0 {
      hide OthersShared;
      OtherShares(docs, n - 1, conf);
      NextOthersShared(docs, n, conf);
    }
  }

  /** The shares of all documents are the linked objects. */
  lemma SharesArePrepared(docs: seq<Document>, conf: Config)
    ensures var q, s := Prepared(LoadAll(docs, conf)), SharesOfFirst(docs, |docs|, conf);
            && s.deployments == q.deployments && s.replicaSets == q.replicaSets
            && s.statefulSets == q.statefulSets
            && s.daemonSets == q.daemonSets && s.volumeClaims == q.volumeClaims
  {
    hide LoadAll, SharesOfFirst, LinkAll;
    assert docs[..|docs|] == docs;
    SharesAreLinked(docs, |docs|, DEPLOYMENT, conf);
    SharesAreLinked(docs, |docs|, REPLICA_SET, conf);
    SharesAreLinked(docs, |docs|, STATEFUL_SET, conf);
    OtherShares(docs, |docs|, conf);
  }

  lemma SumOfAppended(title: string, a: Loaded, b: Loaded, p: Prices)
    ensures Sum(title, FlatCosts(a.Append(b), p)) == Sum(title, FlatCosts(a, p)).Add(Sum(title, FlatCosts(b, p)))
  {
    hide WorkloadCost, DaemonSetCost, VolumeClaimCost, Sum;
    var c := a.Append(b);
    var d1, d2 := WorkloadCosts(DEPLOYMENT, a.deployments, p), WorkloadCosts(DEPLOYMENT, b.deployments, p);
    var r1, r2 := WorkloadCosts(REPLICA_SET, a.replicaSets, p), WorkloadCosts(REPLICA_SET, b.replicaSets, p);
    var s1, s2 := WorkloadCosts(STATEFUL_SET, a.statefulSets, p), WorkloadCosts(STATEFUL_SET, b.statefulSets, p);
    var n1, n2 := DaemonSetCosts(a.daemonSets, p), DaemonSetCosts(b.daemonSets, p);
    var v1, v2 := ClaimCosts(a.volumeClaims, p), ClaimCosts(b.volumeClaims, p);
    assert WorkloadCosts(DEPLOYMENT, c.deployments, p) == d1 + d2;
    assert WorkloadCosts(REPLICA_SET, c.replicaSets, p) == r1 + r2;
    assert WorkloadCosts(STATEFUL_SET, c.statefulSets, p) == s1 + s2;
    assert DaemonSetCosts(c.daemonSets, p) == n1 + n2;
    assert ClaimCosts(c.volumeClaims, p) == v1 + v2;
    FiveSums(title, d1, r1, s1, n1, v1);
    FiveSums(title, d2, r2, s2, n2, v2);
    FiveSums(title, d1 + d2, r1 + r2, s1 + s2, n1 + n2, v1 + v2);
    SumAppend(title, d1, d2);
    SumAppend(title, r1, r2);
    SumAppend(title, s1, s2);
    SumAppend(title, n1, n2);
    SumAppend(title, v1, v2);
  }

  lemma OneWorkloadCosts(kind: string, ws: seq<WorkloadSpec>, p: Prices)
    requires |ws| <= 1
    ensures WorkloadCosts(kind, ws, p)
         == if ws == [] then [] else [WorkloadCost(kind, ws[0].containers, ws[0].replicas, ws[0].hpa, p)]
  {
  }

  lemma OneDaemonSetCosts(ds: seq<DaemonSet>, p: Prices)
    requires |ds| <= 1
    ensures DaemonSetCosts(ds, p) == if ds == [] then [] else [DaemonSetCost(ds[0], p)]
  {
  }

  lemma OneClaimCosts(vs: seq<VolumeClaim>, p: Prices)
    requires |vs| <= 1
    ensures ClaimCosts(vs, p) == if vs == [] then [] else [VolumeClaimCost(vs[0], p)]
  {
  }

  lemma TemplateCosts(templates: seq<ClaimTemplate>, p: Prices)
    ensures ClaimCosts(ClaimsOf(templates), p)
         == seq(|templates|, i requires 0 <= i < |templates| =>
                  VolumeClaimCost(ClaimOf(templates[i].meta, templates[i].spec), p))
  {
    hide VolumeClaimCost, ClaimOf;
  }

  lemma FiveParts(a: seq<CostRange>, b: seq<CostRange>, c: seq<CostRange>, d: seq<CostRange>, e: seq<CostRange>)
    ensures b == c == d == e == [] ==> a + b + c + d + e == a
    ensures a == c == d == e == [] ==> a + b + c + d + e == b
    ensures a == b == d == e == [] ==> a + b + c + d + e == c
    ensures a == b == d == [] ==> a + b + c + d + e == c + e
    ensures a == b == c == e == [] ==> a + b + c + d + e == d
  {
  }

  /** The flat costs of at most one workload of each kind and one node set. */
  lemma FlatCostsOfOne(s: Loaded, p: Prices)
    requires |s.deployments| + |s.replicaSets| + |s.statefulSets| + |s.daemonSets| <= 1
    requires s.volumeClaims != [] ==> s.deployments == [] && s.replicaSets == [] && s.daemonSets == []
    ensures FlatCosts(s, p)
         == if s.deployments != [] then WorkloadCosts(DEPLOYMENT, s.deployments, p)
            else if s.replicaSets != [] then WorkloadCosts(REPLICA_SET, s.replicaSets, p)
            else if s.daemonSets != [] then DaemonSetCosts(s.daemonSets, p)
            else WorkloadCosts(STATEFUL_SET, s.statefulSets, p) + ClaimCosts(s.volumeClaims, p)
  {
    hide WorkloadCost, DaemonSetCost, VolumeClaimCost;
    FiveParts(WorkloadCosts(DEPLOYMENT, s.deployments, p), WorkloadCosts(REPLICA_SET, s.replicaSets, p),
              WorkloadCosts(STATEFUL_SET, s.statefulSets, p), DaemonSetCosts(s.daemonSets, p),
              ClaimCosts(s.volumeClaims, p));
  }

  lemma ShareCosts(docs: seq<Document>, k: nat, conf: Config, p: Prices)
    requires k < |docs|
    ensures FlatCosts(Share(docs, k, conf), p) == DocumentCosts(docs, k, conf, p)
  {
    hide WorkloadCost, DaemonSetCost, VolumeClaimCost, AutoscalerOf, BuiltAll, Populated, ClaimOf, DaemonSetOf;
    hide WorkloadCosts, DaemonSetCosts, ClaimCosts, ClaimsOf, KeyOf, FlatCosts;
    var s := Share(docs, k, conf);
    FlatCostsOfOne(s, p);
    match docs[k]
    case DeploymentDoc(_, _) => OneWorkloadCosts(DEPLOYMENT, s.deployments, p);
    case ReplicaSetDoc(_, _) => OneWorkloadCosts(REPLICA_SET, s.replicaSets, p);
    case StatefulSetDoc(_, _, templates) =>
      OneWorkloadCosts(STATEFUL_SET, s.statefulSets, p);
      TemplateCosts(templates, p);
    case DaemonSetDoc(_, _) => OneDaemonSetCosts(s.daemonSets, p);
    case _ =>
      OneWorkloadCosts(STATEFUL_SET, s.statefulSets, p);
      OneClaimCosts(s.volumeClaims, p);
  }

  lemma NothingCosts(p: Prices)
    ensures FlatCosts(NOTHING, p) == []
  {
  }

  lemma {:induction false} SumOfShares(title: string, docs: seq<Document>, n: nat, conf: Config, p: Prices)
    requires n <= |docs|
    ensures Sum(title, FlatCosts(SharesOfFirst(docs, n, conf), p)) == Sum(title, CostsOfFirst(docs, n, conf, p))
  {
    hide FlatCosts, DocumentCosts, Share, Sum, Loaded.Append, CostRange.Add;
    if n == 0 {
      NothingCosts(p);
    } else {
      SumOfShares(title, docs, n - 1, conf, p);
      SumOfAppended(title, SharesOfFirst(docs, n - 1, conf), Share(docs, n - 1, conf), p);
      ShareCosts(docs, n - 1, conf, p);
      SumAppend(title, CostsOfFirst(docs, n - 1, conf, p), DocumentCosts(docs, n - 1, conf, p));
    }
  }

  /** The monthly total is the sum of what each document costs by itself. */
  lemma TotalIsSumOverDocuments(title: string, docs: seq<Document>, conf: Config, p: Prices)
    ensures Sum(title, Estimate(LoadAll(docs, conf), p)) == Sum(title, CostsOfFirst(docs, |docs|, conf, p))
  {
    hide LoadAll, Sum, Prepared, Ranges, CostsOfFirst, SharesOfFirst, WorkloadCosts, DaemonSetCosts, ClaimCosts;
    SharesArePrepared(docs, conf);
    TotalIsFlatSum(title, Prepared(LoadAll(docs, conf)), p);
    SumOfShares(title, docs, |docs|, conf, p);
  }

  // ----- The ranges by kind -----

  /** The costs that carry the label of a kind. */
  function OfKind(kind: string, costs: seq<CostRange>): seq<CostRange> {
    if costs == [] then []
    else OfKind(kind, DropLast(costs)) + if Last(costs).kind == kind then [Last(costs)] else []
  }

  lemma {:induction false} OfKindAppend(kind: string, a: seq<CostRange>, b: seq<CostRange>)
    ensures OfKind(kind, a + b) == OfKind(kind, a) + OfKind(kind, b)
  {
    if b == [] {
      assert a + b == a;
    } else {
      OfKindAppend(kind, a, DropLast(b));
      assert DropLast(a + b) == a + DropLast(b);
    }
  }

  lemma {:induction false} OneLabel(kind: string, other: string, costs: seq<CostRange>)
    requires forall c :: c in costs ==> c.kind == other
    ensures OfKind(kind, costs) == if kind == other then costs else []
  {
    if costs != [] {
      SplitLast(costs);
      OneLabel(kind, other, DropLast(costs));
      assert Last(costs) in costs;
    }
  }

  predicate Kind(kind: string) {
    WorkloadKind(kind) || kind == DAEMON_SET || kind == VOLUME_CLAIM
  }

  /** The costs of the objects of one kind. */
  function KindCosts(kind: string, l: Loaded, p: Prices): seq<CostRange>
    requires Kind(kind)
  {
    if WorkloadKind(kind) then WorkloadCosts(kind, ListOf(l, kind), p)
    else if kind == DAEMON_SET then DaemonSetCosts(l.daemonSets, p)
    else ClaimCosts(l.volumeClaims, p)
  }

  lemma Labels(l: Loaded, p: Prices)
    ensures forall c :: c in WorkloadCosts(DEPLOYMENT, l.deployments, p) ==> c.kind == DEPLOYMENT
    ensures forall c :: c in WorkloadCosts(REPLICA_SET, l.replicaSets, p) ==> c.kind == REPLICA_SET
    ensures forall c :: c in WorkloadCosts(STATEFUL_SET, l.statefulSets, p) ==> c.kind == STATEFUL_SET
    ensures forall c :: c in DaemonSetCosts(l.daemonSets, p) ==> c.kind == DAEMON_SET
    ensures forall c :: c in ClaimCosts(l.volumeClaims, p) ==> c.kind == VOLUME_CLAIM
  {
    hide Rate, ScaleOf, Times;
  }

  lemma FiveOfKind(kind: string, a: seq<CostRange>, b: seq<CostRange>, c: seq<CostRange>,
                   d: seq<CostRange>, e: seq<CostRange>)
    ensures OfKind(kind, a + b + c + d + e)
         == OfKind(kind, a) + OfKind(kind, b) + OfKind(kind, c) + OfKind(kind, d) + OfKind(kind, e)
  {
    OfKindAppend(kind, a, b);
    OfKindAppend(kind, a + b, c);
    OfKindAppend(kind, a + b + c, d);
    OfKindAppend(kind, a + b + c + d, e);
  }

  lemma FlatOfKind(kind: string, l: Loaded, p: Prices)
    requires Kind(kind)
    ensures OfKind(kind, FlatCosts(l, p)) == KindCosts(kind, l, p)
  {
    hide OfKind, WorkloadCosts, DaemonSetCosts, ClaimCosts;
    Labels(l, p);
    var c1, c2 := WorkloadCosts(DEPLOYMENT, l.deployments, p), WorkloadCosts(REPLICA_SET, l.replicaSets, p);
    var c3, c4 := WorkloadCosts(STATEFUL_SET, l.statefulSets, p), DaemonSetCosts(l.daemonSets, p);
    var c5 := ClaimCosts(l.volumeClaims, p);
    FiveOfKind(kind, c1, c2, c3, c4, c5);
    OneLabel(kind, DEPLOYMENT, c1);
    OneLabel(kind, REPLICA_SET, c2);
    OneLabel(kind, STATEFUL_SET, c3);
    OneLabel(kind, DAEMON_SET, c4);
    OneLabel(kind, VOLUME_CLAIM, c5);
  }

  lemma WorkloadCostsAppend(kind: string, a: seq<WorkloadSpec>, b: seq<WorkloadSpec>, p: Prices)
    ensures WorkloadCosts(kind, a + b, p) == WorkloadCosts(kind, a, p) + WorkloadCosts(kind, b, p)
  {
    hide WorkloadCost;
  }

  lemma OtherCostsAppend(a: seq<DaemonSet>, b: seq<DaemonSet>, c: seq<VolumeClaim>, d: seq<VolumeClaim>, p: Prices)
    ensures DaemonSetCosts(a + b, p) == DaemonSetCosts(a, p) + DaemonSetCosts(b, p)
    ensures ClaimCosts(c + d, p) == ClaimCosts(c, p) + ClaimCosts(d, p)
  {
    hide DaemonSetCost, VolumeClaimCost;
  }

  lemma KindCostsAppend(kind: string, a: Loaded, b: Loaded, p: Prices)
    requires Kind(kind)
    ensures KindCosts(kind, a.Append(b), p) == KindCosts(kind, a, p) + KindCosts(kind, b, p)
  {
    hide WorkloadCosts, DaemonSetCosts, ClaimCosts;
    WorkloadCostsAppend(kind, if WorkloadKind(kind) then ListOf(a, kind) else [],
                        if WorkloadKind(kind) then ListOf(b, kind) else [], p);
    OtherCostsAppend(a.daemonSets, b.daemonSets, a.volumeClaims, b.volumeClaims, p);
  }

  lemma {:induction false} CostsOfKind(kind: string, docs: seq<Document>, n: nat, conf: Config, p: Prices)
    requires Kind(kind) && n <= |docs|
    ensures OfKind(kind, CostsOfFirst(docs, n, conf, p)) == KindCosts(kind, SharesOfFirst(docs, n, conf), p)
  {
    hide DocumentCosts, Share, FlatCosts, OfKind, KindCosts, Loaded.Append;
    if n == 0 {
      NothingOfKind(kind, p);
    } else {
      CostsOfKind(kind, docs, n - 1, conf, p);
      OfKindAppend(kind, CostsOfFirst(docs, n - 1, conf, p), DocumentCosts(docs, n - 1, conf, p));
      ShareCosts(docs, n - 1, conf, p);
      FlatOfKind(kind, Share(docs, n - 1, conf), p);
      KindCostsAppend(kind, SharesOfFirst(docs, n - 1, conf), Share(docs, n - 1, conf), p);
    }
  }

  lemma NothingOfKind(kind: string, p: Prices)
    requires Kind(kind)
    ensures OfKind(kind, []) == [] && KindCosts(kind, NOTHING, p) == []
  {
  }

  lemma EstimateByKind(l: Loaded, p: Prices)
    ensures Estimate(l, p)
         == KindRange(DEPLOYMENT, KindCosts(DEPLOYMENT, Prepared(l), p))
            + KindRange(REPLICA_SET, KindCosts(REPLICA_SET, Prepared(l), p))
            + KindRange(STATEFUL_SET, KindCosts(STATEFUL_SET, Prepared(l), p))
            + KindRange(DAEMON_SET, KindCosts(DAEMON_SET, Prepared(l), p))
            + KindRange(VOLUME_CLAIM, KindCosts(VOLUME_CLAIM, Prepared(l), p))
  {
    hide Prepared, KindRange, WorkloadCosts, DaemonSetCosts, ClaimCosts;
  }

  lemma KindCostsOfPrepared(kind: string, docs: seq<Document>, conf: Config, p: Prices)
    requires Kind(kind)
    ensures KindCosts(kind, Prepared(LoadAll(docs, conf)), p)
         == OfKind(kind, CostsOfFirst(docs, |docs|, conf, p))
  {
    hide LoadAll, Prepared, SharesOfFirst, CostsOfFirst, OfKind, WorkloadCosts, DaemonSetCosts, ClaimCosts;
    SharesArePrepared(docs, conf);
    CostsOfKind(kind, docs, |docs|, conf, p);
  }

  /** The estimate has one range for each kind that some document costs anything
      of, in a fixed order: the sum of the documents' costs of that kind. */
  lemma RangesAreSumsOverDocuments(docs: seq<Document>, conf: Config, p: Prices)
    ensures var costs := CostsOfFirst(docs, |docs|, conf, p);
            Estimate(LoadAll(docs, conf), p)
              == KindRange(DEPLOYMENT, OfKind(DEPLOYMENT, costs)) + KindRange(REPLICA_SET, OfKind(REPLICA_SET, costs))
                 + KindRange(STATEFUL_SET, OfKind(STATEFUL_SET, costs))
                 + KindRange(DAEMON_SET, OfKind(DAEMON_SET, costs))
                 + KindRange(VOLUME_CLAIM, OfKind(VOLUME_CLAIM, costs))
  {
    hide LoadAll, Estimate, Prepared, CostsOfFirst, OfKind, KindCosts, KindRange;
    EstimateByKind(LoadAll(docs, conf), p);
    KindCostsOfPrepared(DEPLOYMENT, docs, conf, p);
    KindCostsOfPrepared(REPLICA_SET, docs, conf, p);
    KindCostsOfPrepared(STATEFUL_SET, docs, conf, p);
    KindCostsOfPrepared(DAEMON_SET, docs, conf, p);
    KindCostsOfPrepared(VOLUME_CLAIM, docs, conf, p);
  }

  /** Preparing a second time changes nothing, so a second estimate is the first. */
  lemma EstimatedTwice(l: Loaded, p: Prices)
    ensures Prepared(Prepared(l)) == Prepared(l)
    ensures Estimate(Prepared(l), p) == Estimate(l, p)
  {
    LinkingTwice(l.deployments, l.hpas);
    LinkingTwice(l.replicaSets, l.hpas);
    LinkingTwice(l.statefulSets, l.hpas);
  }
}
