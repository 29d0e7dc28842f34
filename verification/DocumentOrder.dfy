/** When the order of the documents matters. */
module DocumentOrder {
  import opened Collections
  import opened Costs
  import opened Workloads
  import opened Defaults
  import opened Keys
  import opened Linking
  import opened Loading
  import opened Estimates

  /** The same objects in any order. */
  ghost predicate SameObjects(a: Loaded, b: Loaded) {
    && multiset(a.deployments) == multiset(b.deployments)
    && multiset(a.replicaSets) == multiset(b.replicaSets)
    && multiset(a.statefulSets) == multiset(b.statefulSets)
    && multiset(a.daemonSets) == multiset(b.daemonSets)
    && multiset(a.volumeClaims) == multiset(b.volumeClaims)
    && multiset(a.hpas) == multiset(b.hpas)
  }

  lemma AppendSwapped(a: Loaded, b: Loaded, c: Loaded)
    ensures SameObjects(a.Append(c).Append(b), a.Append(b).Append(c))
  {
  }

  lemma LoadWithout(docs: seq<Document>, i: nat, conf: Config)
    requires i < |docs|
    ensures SameObjects(LoadAll(docs, conf), LoadAll(docs[..i] + docs[i + 1..], conf).Append(LoadOne(docs[i], conf)))
  {
    hide LoadOne, LoadAll, SameObjects;
    var front, back := docs[..i], docs[i + 1..];
    assert docs == front + [docs[i]] + back;
    LoadAppend(front, back, conf);
    LoadInserted(front, docs[i], back, conf);
    AppendSwapped(LoadAll(front, conf), LoadAll(back, conf), LoadOne(docs[i], conf));
  }

  lemma AppendSame(a: Loaded, b: Loaded, c: Loaded)
    requires SameObjects(a, b)
    ensures SameObjects(a.Append(c), b.Append(c))
  {
  }

  lemma {:induction false} LoadPermuted(a: seq<Document>, b: seq<Document>, conf: Config)
    requires multiset(a) == multiset(b)
    ensures SameObjects(LoadAll(a, conf), LoadAll(b, conf))
  {
    if a == [] {
      PermutedEmpty(b);
    } else {
      hide LoadOne;
      var i := FindInPermutation(a, b);
      LoadPermuted(DropLast(a), b[..i] + b[i + 1..], conf);
      LoadWithout(b, i, conf);
      AppendSame(LoadAll(DropLast(a), conf), LoadAll(b[..i] + b[i + 1..], conf), LoadOne(Last(a), conf));
    }
  }

  ghost predicate AllUnambiguous(l: Loaded) {
    Unambiguous(l.deployments, l.hpas) && Unambiguous(l.replicaSets, l.hpas) && Unambiguous(l.statefulSets, l.hpas)
  }

  lemma KindRangePermuted(kind: string, a: seq<CostRange>, b: seq<CostRange>)
    requires multiset(a) == multiset(b)
    ensures KindRange(kind, a) == KindRange(kind, b)
  {
    SumPermuted(kind, a, b);
    assert |a| == |multiset(a)| && |b| == |multiset(b)|;
  }

  lemma WorkloadRangePermuted(kind: string, a: seq<WorkloadSpec>, b: seq<WorkloadSpec>, p: Prices)
    requires multiset(a) == multiset(b)
    ensures KindRange(kind, WorkloadCosts(kind, a, p)) == KindRange(kind, WorkloadCosts(kind, b, p))
  {
    var f := (w: WorkloadSpec) => WorkloadCost(kind, w.containers, w.replicas, w.hpa, p);
    MapPermuted(a, b, f);
    assert WorkloadCosts(kind, a, p) == Map(a, f) && WorkloadCosts(kind, b, p) == Map(b, f);
    KindRangePermuted(kind, WorkloadCosts(kind, a, p), WorkloadCosts(kind, b, p));
  }

  lemma DaemonSetRangePermuted(a: seq<DaemonSet>, b: seq<DaemonSet>, p: Prices)
    requires multiset(a) == multiset(b)
    ensures KindRange(DAEMON_SET, DaemonSetCosts(a, p)) == KindRange(DAEMON_SET, DaemonSetCosts(b, p))
  {
    var f := (d: DaemonSet) => DaemonSetCost(d, p);
    MapPermuted(a, b, f);
    assert DaemonSetCosts(a, p) == Map(a, f) && DaemonSetCosts(b, p) == Map(b, f);
    KindRangePermuted(DAEMON_SET, DaemonSetCosts(a, p), DaemonSetCosts(b, p));
  }

  lemma ClaimRangePermuted(a: seq<VolumeClaim>, b: seq<VolumeClaim>, p: Prices)
    requires multiset(a) == multiset(b)
    ensures KindRange(VOLUME_CLAIM, ClaimCosts(a, p)) == KindRange(VOLUME_CLAIM, ClaimCosts(b, p))
  {
    var f := (v: VolumeClaim) => VolumeClaimCost(v, p);
    MapPermuted(a, b, f);
    assert ClaimCosts(a, p) == Map(a, f) && ClaimCosts(b, p) == Map(b, f);
    KindRangePermuted(VOLUME_CLAIM, ClaimCosts(a, p), ClaimCosts(b, p));
  }

  lemma SameObjectsSameRanges(a: Loaded, b: Loaded, p: Prices)
    requires SameObjects(a, b)
    ensures Ranges(a, p) == Ranges(b, p)
  {
    hide KindRange;
    WorkloadRangePermuted(DEPLOYMENT, a.deployments, b.deployments, p);
    WorkloadRangePermuted(REPLICA_SET, a.replicaSets, b.replicaSets, p);
    WorkloadRangePermuted(STATEFUL_SET, a.statefulSets, b.statefulSets, p);
    DaemonSetRangePermuted(a.daemonSets, b.daemonSets, p);
    ClaimRangePermuted(a.volumeClaims, b.volumeClaims, p);
  }

  lemma SameObjectsLinkedAlike(a: Loaded, b: Loaded)
    requires SameObjects(a, b) && AllUnambiguous(a)
    ensures SameObjects(Prepared(a), Prepared(b))
  {
    hide LinkAll, Unambiguous;
    LinkedPermuted(a.deployments, b.deployments, a.hpas, b.hpas);
    LinkedPermuted(a.replicaSets, b.replicaSets, a.hpas, b.hpas);
    LinkedPermuted(a.statefulSets, b.statefulSets, a.hpas, b.hpas);
  }

  /** Every order of the documents gives the same objects with the same autoscalers. */
  ghost predicate OrderFreeDocuments(docs: seq<Document>, conf: Config) {
    forall other :: multiset(other) == multiset(docs)
                ==> SameObjects(Prepared(LoadAll(other, conf)), Prepared(LoadAll(docs, conf)))
  }

  lemma {:induction false} LoadedUnlinked(docs: seq<Document>, conf: Config, kind: string)
    requires WorkloadKind(kind)
    ensures Unlinked(ListOf(LoadAll(docs, conf), kind), LoadAll(docs, conf).hpas)
  {
    if docs != [] {
      LoadedUnlinked(DropLast(docs), conf, kind);
      OneUnlinked(Last(docs), conf, kind);
      hide LoadOne;
    }
  }

  lemma OneUnlinked(d: Document, conf: Config, kind: string)
    requires WorkloadKind(kind)
    ensures Unlinked(ListOf(LoadOne(d, conf), kind), LoadOne(d, conf).hpas)
  {
  }

  lemma OneWorkload(d: Document, conf: Config, kind: string, w: WorkloadSpec)
    requires WorkloadKind(kind) && w in ListOf(LoadOne(d, conf), kind)
    ensures !d.HpaDoc? && ListOf(LoadOne(d, conf), kind) == [w]
  {
  }

  lemma {:induction false} DocumentOf(docs: seq<Document>, conf: Config, kind: string, w: WorkloadSpec)
    returns (d: Document)
    requires WorkloadKind(kind) && w in ListOf(LoadAll(docs, conf), kind)
    ensures d in docs && !d.HpaDoc? && ListOf(LoadOne(d, conf), kind) == [w]
  {
    hide LoadOne;
    if w in ListOf(LoadOne(Last(docs), conf), kind) {
      d := Last(docs);
      OneWorkload(d, conf, kind, w);
    } else {
      d := DocumentOf(DropLast(docs), conf, kind, w);
    }
  }

  lemma {:induction false} AutoscalerDocument(docs: seq<Document>, conf: Config, h: HPA) returns (d: Document)
    requires h in LoadAll(docs, conf).hpas
    ensures d in docs && d.HpaDoc? && LoadOne(d, conf).hpas == [h]
  {
    if h in LoadOne(Last(docs), conf).hpas {
      d := Last(docs);
    } else {
      d := AutoscalerDocument(DropLast(docs), conf, h);
    }
  }

  /** The documents in an order that loads workload `w` and autoscaler `h` last. */
  lemma LoadedLast(docs: seq<Document>, conf: Config, kind: string, w: WorkloadSpec, h: HPA)
    returns (other: seq<Document>)
    requires WorkloadKind(kind)
    requires w in ListOf(LoadAll(docs, conf), kind) && h in LoadAll(docs, conf).hpas
    ensures multiset(other) == multiset(docs)
    ensures var ws, hpas := ListOf(LoadAll(other, conf), kind), LoadAll(other, conf).hpas;
            && ws != [] && Last(ws) == w && hpas != [] && Last(hpas) == h
            && forall g :: g in LoadAll(docs, conf).hpas ==> g in hpas
  {
    hide LoadOne, SameObjects;
    var x := DocumentOf(docs, conf, kind, w);
    var y := AutoscalerDocument(docs, conf, h);
    var front := WithLastTwo(docs, x, y);
    other := front + [x] + [y];
    DropAppended(front + [x], y);
    DropAppended(front, x);
    NoWorkload(y, conf, kind);
    SameAutoscalers(docs, other, conf);
  }

  lemma NoWorkload(d: Document, conf: Config, kind: string)
    requires d.HpaDoc? && WorkloadKind(kind)
    ensures ListOf(LoadOne(d, conf), kind) == []
  {
  }

  lemma SameAutoscalers(docs: seq<Document>, other: seq<Document>, conf: Config)
    requires multiset(docs) == multiset(other)
    ensures forall g :: g in LoadAll(docs, conf).hpas ==> g in LoadAll(other, conf).hpas
  {
    hide LoadAll;
    LoadPermuted(docs, other, conf);
    assert forall g :: g in LoadAll(docs, conf).hpas ==> g in multiset(LoadAll(other, conf).hpas);
  }

  lemma LinkedTheSame(docs: seq<Document>, conf: Config, kind: string, a: seq<Document>, b: seq<Document>)
    requires WorkloadKind(kind) && OrderFreeDocuments(docs, conf)
    requires multiset(a) == multiset(docs) == multiset(b)
    ensures multiset(LinkAll(ListOf(LoadAll(a, conf), kind), LoadAll(a, conf).hpas))
         == multiset(LinkAll(ListOf(LoadAll(b, conf), kind), LoadAll(b, conf).hpas))
  {
    hide LoadAll, LinkAll, Prepared;
    PreparedList(LoadAll(a, conf), kind);
    PreparedList(LoadAll(b, conf), kind);
    assert SameObjects(Prepared(LoadAll(a, conf)), Prepared(LoadAll(docs, conf)));
    assert SameObjects(Prepared(LoadAll(b, conf)), Prepared(LoadAll(docs, conf)));
  }

  lemma SharedNameShows(docs: seq<Document>, conf: Config, kind: string, v: WorkloadSpec, w: WorkloadSpec, h: HPA)
    requires WorkloadKind(kind)
    requires v in ListOf(LoadAll(docs, conf), kind) && w in ListOf(LoadAll(docs, conf), kind) && v != w
    requires h in LoadAll(docs, conf).hpas && Names(v.key, h.targetRef) && Names(w.key, h.targetRef)
    ensures !OrderFreeDocuments(docs, conf)
  {
    hide LoadAll, LinkAll, ListOf, OrderFreeDocuments, Unlinked, Names;
    var a := LoadedLast(docs, conf, kind, v, h);
    var b := LoadedLast(docs, conf, kind, w, h);
    LoadedUnlinked(a, conf, kind);
    LoadedUnlinked(b, conf, kind);
    SharedNameDependsOnOrder(ListOf(LoadAll(a, conf), kind), LoadAll(a, conf).hpas,
                             ListOf(LoadAll(b, conf), kind), LoadAll(b, conf).hpas);
    if OrderFreeDocuments(docs, conf) {
      LinkedTheSame(docs, conf, kind, a, b);
    }
  }

  lemma SharedTargetShows(docs: seq<Document>, conf: Config, kind: string, w: WorkloadSpec, g: HPA, h: HPA)
    requires WorkloadKind(kind) && w in ListOf(LoadAll(docs, conf), kind)
    requires g in LoadAll(docs, conf).hpas && h in LoadAll(docs, conf).hpas && g != h
    requires Names(w.key, g.targetRef) && Names(w.key, h.targetRef)
    ensures !OrderFreeDocuments(docs, conf)
  {
    hide LoadAll, LinkAll, ListOf, OrderFreeDocuments, Unlinked, Names;
    var a := LoadedLast(docs, conf, kind, w, g);
    var b := LoadedLast(docs, conf, kind, w, h);
    LoadedUnlinked(a, conf, kind);
    LoadedUnlinked(b, conf, kind);
    SharedTargetDependsOnOrder(ListOf(LoadAll(a, conf), kind), LoadAll(a, conf).hpas,
                               ListOf(LoadAll(b, conf), kind), LoadAll(b, conf).hpas);
    if OrderFreeDocuments(docs, conf) {
      LinkedTheSame(docs, conf, kind, a, b);
    }
  }

  lemma AmbiguityShows(docs: seq<Document>, conf: Config, kind: string)
    requires WorkloadKind(kind)
    requires !Unambiguous(ListOf(LoadAll(docs, conf), kind), LoadAll(docs, conf).hpas)
    ensures !OrderFreeDocuments(docs, conf)
  {
    hide LoadAll, ListOf, OrderFreeDocuments, Names;
    var ws, hpas := ListOf(LoadAll(docs, conf), kind), LoadAll(docs, conf).hpas;
    if exists h :: h in hpas && !NamesOne(h.targetRef, ws) {
      var h :| h in hpas && !NamesOne(h.targetRef, ws);
      var v, w :| v in ws && w in ws && Names(v.key, h.targetRef) && Names(w.key, h.targetRef) && v != w;
      SharedNameShows(docs, conf, kind, v, w, h);
    } else {
      var w :| w in ws && !NamedOnce(w, hpas);
      var g, h :| g in hpas && h in hpas && Names(w.key, g.targetRef) && Names(w.key, h.targetRef) && g != h;
      SharedTargetShows(docs, conf, kind, w, g, h);
    }
  }

  /** The order of the documents has no influence on which workload has which
      autoscaler exactly when, in each kind, no autoscaler names two different
      workloads and no two different autoscalers name one workload. */
  lemma OrderFreeIffUnambiguous(docs: seq<Document>, conf: Config)
    ensures OrderFreeDocuments(docs, conf) <==> AllUnambiguous(LoadAll(docs, conf))
  {
    hide LoadAll, Prepared, Unambiguous;
    var l := LoadAll(docs, conf);
    if AllUnambiguous(l) {
      forall other | multiset(other) == multiset(docs)
        ensures SameObjects(Prepared(LoadAll(other, conf)), Prepared(l))
      {
        LoadPermuted(docs, other, conf);
        SameObjectsLinkedAlike(l, LoadAll(other, conf));
      }
    } else if !Unambiguous(l.deployments, l.hpas) {
      AmbiguityShows(docs, conf, DEPLOYMENT);
    } else if !Unambiguous(l.replicaSets, l.hpas) {
      AmbiguityShows(docs, conf, REPLICA_SET);
    } else {
      AmbiguityShows(docs, conf, STATEFUL_SET);
    }
  }

  /** So without ambiguous references every order gives the same estimate. */
  lemma DocumentOrderIsIrrelevant(docs: seq<Document>, other: seq<Document>, conf: Config, p: Prices)
    requires multiset(docs) == multiset(other) && AllUnambiguous(LoadAll(docs, conf))
    ensures Estimate(LoadAll(docs, conf), p) == Estimate(LoadAll(other, conf), p)
  {
    hide LoadAll, Prepared, Ranges;
    LoadPermuted(docs, other, conf);
    SameObjectsLinkedAlike(LoadAll(docs, conf), LoadAll(other, conf));
    SameObjectsSameRanges(Prepared(LoadAll(docs, conf)), Prepared(LoadAll(other, conf)), p);
  }
}
