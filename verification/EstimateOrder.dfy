/** When the order of the documents matters for the estimate.

    A reference may be ambiguous and yet cost the same in every order. What
    decides is whether the autoscalers that name a workload cost it the same, and
    whether two workloads that one autoscaler names can change places. */
module EstimateOrder {
  import opened Collections
  import opened Costs
  import opened Workloads
  import opened Defaults
  import opened Keys
  import opened Autoscalers
  import opened Linking
  import opened Loading
  import opened Estimates
  import opened DocumentOrder

  // ----- What a workload gets, told by the workloads loaded after it -----

  function CostUnder(kind: string, w: WorkloadSpec, h: HPA, p: Prices): CostRange {
    WorkloadCost(kind, w.containers, w.replicas, h, p)
  }

  /** The autoscaler names the workload and none of those loaded after it. */
  predicate Free(w: WorkloadSpec, later: seq<WorkloadSpec>, h: HPA) {
    Names(w.key, h.targetRef) && forall v :: v in later ==> !Names(v.key, h.targetRef)
  }

  function FreeFor(w: WorkloadSpec, later: seq<WorkloadSpec>, hpas: seq<HPA>): HPA {
    if hpas == [] then NO_HPA
    else if Free(w, later, Last(hpas)) then Last(hpas)
    else FreeFor(w, later, DropLast(hpas))
  }

  lemma {:induction false} FreeForIs(w: WorkloadSpec, later: seq<WorkloadSpec>, hpas: seq<HPA>)
    ensures var h := FreeFor(w, later, hpas);
            || (h in hpas && Free(w, later, h))
            || (h == NO_HPA && forall g :: g in hpas ==> !Free(w, later, g))
  {
    if hpas != [] {
      hide Free;
      SplitLast(hpas);
      FreeForIs(w, later, DropLast(hpas));
    }
  }

  lemma LatestIffFree(ws: seq<WorkloadSpec>, i: nat, h: HPA)
    requires i < |ws|
    ensures Latest(KeysOf(ws), h.targetRef) == i <==> Free(ws[i], ws[i + 1..], h)
  {
    var k := Latest(KeysOf(ws), h.targetRef);
    assert KeysOf(ws)[i] == ws[i].key;
    if k == i {
      forall v | v in ws[i + 1..] ensures !Names(v.key, h.targetRef) {
        var m :| 0 <= m < |ws[i + 1..]| && ws[i + 1..][m] == v;
        assert KeysOf(ws)[i + 1 + m] == v.key;
      }
    } else if Names(ws[i].key, h.targetRef) {
      assert k > i && ws[i + 1..][k - i - 1] == ws[k] && KeysOf(ws)[k] == ws[k].key;
    }
  }

  lemma {:induction false} AssignedIsFree(ws: seq<WorkloadSpec>, hpas: seq<HPA>, i: nat)
    requires i < |ws|
    ensures Assigned(KeysOf(ws), hpas, i, NO_HPA) == FreeFor(ws[i], ws[i + 1..], hpas)
  {
    if hpas != [] {
      hide Free;
      AssignedIsFree(ws, DropLast(hpas), i);
      LatestIffFree(ws, i, Last(hpas));
    }
  }

  /** What the workloads cost together, the first one first. */
  function Total(kind: string, ws: seq<WorkloadSpec>, hpas: seq<HPA>, p: Prices): CostRange {
    if ws == [] then Zero(kind)
    else CostUnder(kind, ws[0], FreeFor(ws[0], ws[1..], hpas), p).Add(Total(kind, ws[1..], hpas, p))
  }

  lemma SumFromFront(kind: string, costs: seq<CostRange>)
    requires costs != [] && costs[0].kind == kind
    ensures Sum(kind, costs) == costs[0].Add(Sum(kind, costs[1..]))
  {
    assert costs == [costs[0]] + costs[1..];
    SumAppend(kind, [costs[0]], costs[1..]);
    assert DropLast([costs[0]]) == [] && Last([costs[0]]) == costs[0];
  }

  function FreeCosts(kind: string, ws: seq<WorkloadSpec>, hpas: seq<HPA>, p: Prices): seq<CostRange> {
    seq(|ws|, i requires 0 <= i < |ws| => CostUnder(kind, ws[i], FreeFor(ws[i], ws[i + 1..], hpas), p))
  }

  lemma {:induction false} SumOfFreeCosts(kind: string, ws: seq<WorkloadSpec>, hpas: seq<HPA>, p: Prices)
    ensures Sum(kind, FreeCosts(kind, ws, hpas, p)) == Total(kind, ws, hpas, p)
  {
    if ws != [] {
      hide FreeFor, Sum;
      SumOfFreeCosts(kind, ws[1..], hpas, p);
      var costs := FreeCosts(kind, ws, hpas, p);
      forall i: nat | i < |ws| - 1 ensures costs[1..][i] == FreeCosts(kind, ws[1..], hpas, p)[i] {
        assert ws[1..][i + 1..] == ws[i + 2..];
      }
      assert costs[1..] == FreeCosts(kind, ws[1..], hpas, p);
      SumFromFront(kind, costs);
    }
  }

  /** The range of a kind is the total of its workloads. */
  lemma LinkedCostIsTotal(kind: string, ws: seq<WorkloadSpec>, hpas: seq<HPA>, p: Prices)
    requires Unlinked(ws, hpas)
    ensures Sum(kind, WorkloadCosts(kind, LinkAll(ws, hpas), p)) == Total(kind, ws, hpas, p)
  {
    hide FreeFor, LinkAll, Sum, WorkloadCost;
    forall i: nat | i < |ws|
      ensures WorkloadCosts(kind, LinkAll(ws, hpas), p)[i] == FreeCosts(kind, ws, hpas, p)[i]
    {
      assert ws[i] in ws;
      LinkAllAssigns(ws, hpas, i);
      AssignedIsFree(ws, hpas, i);
    }
    assert WorkloadCosts(kind, LinkAll(ws, hpas), p) == FreeCosts(kind, ws, hpas, p);
    SumOfFreeCosts(kind, ws, hpas, p);
  }

  // ----- When the costs do not tell the orders apart -----

  /** All autoscalers that name the workload cost it the same. */
  ghost predicate SameUnderEach(kind: string, w: WorkloadSpec, hpas: seq<HPA>, p: Prices) {
    forall g, h :: g in hpas && h in hpas && Names(w.key, g.targetRef) && Names(w.key, h.targetRef)
               ==> CostUnder(kind, w, g, p) == CostUnder(kind, w, h, p)
  }

  /** Some autoscaler names v but not w. */
  ghost predicate HasOwn(v: WorkloadSpec, w: WorkloadSpec, hpas: seq<HPA>) {
    exists g :: g in hpas && Names(v.key, g.targetRef) && !Names(w.key, g.targetRef)
  }

  /** What v is left with when w, loaded after it, takes over the autoscaler h. */
  ghost function LeftWith(v: WorkloadSpec, w: WorkloadSpec, h: HPA, hpas: seq<HPA>): HPA {
    if HasOwn(v, w, hpas) then h else NO_HPA
  }

  /** It costs the same whether v or w is the one that h scales. */
  ghost predicate Exchangeable(kind: string, v: WorkloadSpec, w: WorkloadSpec, h: HPA, hpas: seq<HPA>, p: Prices) {
    CostUnder(kind, v, LeftWith(v, w, h, hpas), p).Add(CostUnder(kind, w, h, p))
    == CostUnder(kind, w, LeftWith(w, v, h, hpas), p).Add(CostUnder(kind, v, h, p))
  }

  ghost predicate Indifferent(kind: string, ws: seq<WorkloadSpec>, hpas: seq<HPA>, p: Prices) {
    && (forall w :: w in ws ==> SameUnderEach(kind, w, hpas, p))
    && (forall v, w, h :: v in ws && w in ws && h in hpas && Names(v.key, h.targetRef) && Names(w.key, h.targetRef)
                      ==> Exchangeable(kind, v, w, h, hpas, p))
  }

  /** What the workload costs with the workloads `later` loaded after it. */
  function CostBefore(kind: string, w: WorkloadSpec, later: seq<WorkloadSpec>, hpas: seq<HPA>, p: Prices): CostRange {
    CostUnder(kind, w, FreeFor(w, later, hpas), p)
  }

  ghost predicate SameMembers<T(!new)>(a: seq<T>, b: seq<T>) {
    forall x :: x in a <==> x in b
  }

  lemma PermutedMembers<T(!new)>(a: seq<T>, b: seq<T>)
    requires multiset(a) == multiset(b)
    ensures SameMembers(a, b)
  {
    assert forall x :: x in a <==> x in multiset(b);
  }

  /** Neither the order of the autoscalers nor that of the later workloads counts. */
  lemma CostBeforeMembers(kind: string, w: WorkloadSpec, later: seq<WorkloadSpec>, later': seq<WorkloadSpec>,
                          hpas: seq<HPA>, hpas': seq<HPA>, p: Prices)
    requires SameMembers(later, later') && SameMembers(hpas, hpas') && SameUnderEach(kind, w, hpas, p)
    ensures CostBefore(kind, w, later, hpas, p) == CostBefore(kind, w, later', hpas', p)
  {
    hide FreeFor, CostUnder;
    FreeForIs(w, later, hpas);
    FreeForIs(w, later', hpas');
    var g, h := FreeFor(w, later, hpas), FreeFor(w, later', hpas');
    assert Free(w, later, g) <==> Free(w, later', g);
    assert Free(w, later, h) <==> Free(w, later', h);
  }

  /** A free autoscaler decides the cost. */
  lemma FreeDecides(kind: string, w: WorkloadSpec, later: seq<WorkloadSpec>, hpas: seq<HPA>, h: HPA, g: HPA, p: Prices)
    requires SameUnderEach(kind, w, hpas, p) && g in hpas && Free(w, later, g)
    requires h in hpas && Names(w.key, h.targetRef)
    ensures CostBefore(kind, w, later, hpas, p) == CostUnder(kind, w, h, p)
  {
    hide FreeFor, CostUnder;
    FreeForIs(w, later, hpas);
  }

  /** The names under which two references are found are nested if they share one:
      what a reference naming y but not x names, any reference naming both names too. */
  lemma NamesNested(x: Key, y: Key, z: Key, g: string, h: string)
    requires Names(y, g) && !Names(x, g) && Names(x, h) && Names(y, h) && Names(z, g)
    ensures Names(z, h)
  {
    NamesDetermineKindName(x, y, h);
    KindNameTwice(z);
  }

  /** A kind name is its own kind name. */
  lemma KindNameTwice(key: Key)
    ensures '|' in BuildKindName(key) && BuildKindName(BuildKindName(key)) == BuildKindName(key)
  {
    assert BuildKindName(key)[0] == '|';
  }

  /** Left without h, the workload falls back on an autoscaler of its own, if any. */
  lemma CostWithoutShared(kind: string, x: WorkloadSpec, y: WorkloadSpec, rest: seq<WorkloadSpec>, h: HPA,
                          hpas: seq<HPA>, p: Prices)
    requires SameUnderEach(kind, x, hpas, p) && h in hpas && Free(x, rest, h) && Free(y, rest, h)
    ensures CostBefore(kind, x, [y] + rest, hpas, p) == CostUnder(kind, x, LeftWith(x, y, h, hpas), p)
  {
    hide FreeFor, CostUnder;
    if HasOwn(x, y, hpas) {
      var g :| g in hpas && Names(x.key, g.targetRef) && !Names(y.key, g.targetRef);
      forall z | z in [y] + rest ensures !Names(z.key, g.targetRef) {
        if z in rest && Names(z.key, g.targetRef) {
          NamesNested(y.key, x.key, z.key, g.targetRef, h.targetRef);
        }
      }
      FreeDecides(kind, x, [y] + rest, hpas, h, g, p);
    } else {
      FreeForIs(x, [y] + rest, hpas);
      assert y in [y] + rest;
    }
  }

  lemma CostWithoutOther(kind: string, x: WorkloadSpec, y: WorkloadSpec, rest: seq<WorkloadSpec>, hpas: seq<HPA>,
                         p: Prices)
    requires SameUnderEach(kind, x, hpas, p) && forall h :: h in hpas ==> !(Free(x, rest, h) && Free(y, rest, h))
    ensures CostBefore(kind, x, [y] + rest, hpas, p) == CostBefore(kind, x, rest, hpas, p)
  {
    hide FreeFor, CostUnder;
    FreeForIs(x, [y] + rest, hpas);
    FreeForIs(x, rest, hpas);
    var g, h := FreeFor(x, [y] + rest, hpas), FreeFor(x, rest, hpas);
    assert y in [y] + rest && forall z :: z in rest ==> z in [y] + rest;
    assert h in hpas && Free(x, rest, h) ==> Free(x, [y] + rest, h);
  }

  lemma Swapped(kind: string, x: WorkloadSpec, y: WorkloadSpec, rest: seq<WorkloadSpec>, all: seq<WorkloadSpec>,
                hpas: seq<HPA>, p: Prices)
    requires Indifferent(kind, all, hpas, p) && x in all && y in all
    ensures CostBefore(kind, x, [y] + rest, hpas, p).Add(CostBefore(kind, y, rest, hpas, p))
         == CostBefore(kind, y, [x] + rest, hpas, p).Add(CostBefore(kind, x, rest, hpas, p))
  {
    hide CostBefore, CostUnder, LeftWith;
    if exists h :: h in hpas && Free(x, rest, h) && Free(y, rest, h) {
      var h :| h in hpas && Free(x, rest, h) && Free(y, rest, h);
      CostWithoutShared(kind, x, y, rest, h, hpas, p);
      CostWithoutShared(kind, y, x, rest, h, hpas, p);
      FreeDecides(kind, x, rest, hpas, h, h, p);
      FreeDecides(kind, y, rest, hpas, h, h, p);
      assert Exchangeable(kind, x, y, h, hpas, p);
    } else {
      hide Free;
      CostWithoutOther(kind, x, y, rest, hpas, p);
      CostWithoutOther(kind, y, x, rest, hpas, p);
      AddCommutes(kind, x, y, rest, hpas, p);
    }
  }

  lemma AddCommutes(kind: string, x: WorkloadSpec, y: WorkloadSpec, rest: seq<WorkloadSpec>, hpas: seq<HPA>, p: Prices)
    ensures CostBefore(kind, x, rest, hpas, p).Add(CostBefore(kind, y, rest, hpas, p))
         == CostBefore(kind, y, rest, hpas, p).Add(CostBefore(kind, x, rest, hpas, p))
  {
  }

  lemma AddAssociates(a: CostRange, b: CostRange, c: CostRange)
    ensures a.Add(b.Add(c)) == a.Add(b).Add(c)
  {
  }

  lemma TotalStep(kind: string, w: WorkloadSpec, rest: seq<WorkloadSpec>, hpas: seq<HPA>, p: Prices)
    ensures Total(kind, [w] + rest, hpas, p) == CostBefore(kind, w, rest, hpas, p).Add(Total(kind, rest, hpas, p))
  {
    assert ([w] + rest)[1..] == rest;
  }

  lemma TotalSwapped(kind: string, x: WorkloadSpec, y: WorkloadSpec, rest: seq<WorkloadSpec>, all: seq<WorkloadSpec>,
                     hpas: seq<HPA>, p: Prices)
    requires Indifferent(kind, all, hpas, p) && x in all && y in all
    ensures Total(kind, [x] + ([y] + rest), hpas, p) == Total(kind, [y] + ([x] + rest), hpas, p)
  {
    hide Total, CostBefore, Indifferent;
    TotalStep(kind, x, [y] + rest, hpas, p);
    TotalStep(kind, y, rest, hpas, p);
    TotalStep(kind, y, [x] + rest, hpas, p);
    TotalStep(kind, x, rest, hpas, p);
    Swapped(kind, x, y, rest, all, hpas, p);
    AddAssociates(CostBefore(kind, x, [y] + rest, hpas, p), CostBefore(kind, y, rest, hpas, p),
                  Total(kind, rest, hpas, p));
    AddAssociates(CostBefore(kind, y, [x] + rest, hpas, p), CostBefore(kind, x, rest, hpas, p),
                  Total(kind, rest, hpas, p));
  }

  lemma FrontSplit(front: seq<WorkloadSpec>, x: WorkloadSpec, back: seq<WorkloadSpec>)
    requires front != []
    ensures front + ([x] + back) == [front[0]] + (front[1..] + ([x] + back))
    ensures front + back == [front[0]] + (front[1..] + back)
    ensures SameMembers(front[1..] + ([x] + back), [x] + (front[1..] + back))
  {
  }

  lemma MembersOnly(a: seq<WorkloadSpec>, kind: string, all: seq<WorkloadSpec>, hpas: seq<HPA>, p: Prices)
    requires a != [] && Indifferent(kind, all, hpas, p) && forall w :: w in a ==> w in all
    ensures SameUnderEach(kind, a[0], hpas, p) && a[0] in all && SameMembers(hpas, hpas)
    ensures forall w :: w in a[1..] ==> w in all
  {
    assert a[0] in a && forall w :: w in a[1..] ==> w in a;
  }

  lemma {:induction false} MovedToFront(kind: string, front: seq<WorkloadSpec>, x: WorkloadSpec,
                                        back: seq<WorkloadSpec>, all: seq<WorkloadSpec>, hpas: seq<HPA>, p: Prices)
    requires Indifferent(kind, all, hpas, p) && x in all && forall w :: w in front ==> w in all
    ensures Total(kind, front + ([x] + back), hpas, p) == Total(kind, [x] + (front + back), hpas, p)
    decreases |front|
  {
    hide *;
    if front == [] {
      assert front + ([x] + back) == [x] + back && front + back == back;
    } else {
      var y, f := front[0], front[1..];
      MembersOnly(front, kind, all, hpas, p);
      FrontSplit(front, x, back);
      MovedToFront(kind, f, x, back, all, hpas, p);
      TotalStep(kind, y, f + ([x] + back), hpas, p);
      TotalStep(kind, y, [x] + (f + back), hpas, p);
      CostBeforeMembers(kind, y, f + ([x] + back), [x] + (f + back), hpas, hpas, p);
      TotalSwapped(kind, y, x, f + back, all, hpas, p);
    }
  }

  lemma TotalPermutedStep(kind: string, x: WorkloadSpec, rest: seq<WorkloadSpec>, front: seq<WorkloadSpec>,
                          back: seq<WorkloadSpec>, all: seq<WorkloadSpec>, hpas: seq<HPA>, p: Prices)
    requires Indifferent(kind, all, hpas, p) && x in all && forall w :: w in front ==> w in all
    requires multiset(rest) == multiset(front + back)
    requires Total(kind, rest, hpas, p) == Total(kind, front + back, hpas, p)
    ensures Total(kind, [x] + rest, hpas, p) == Total(kind, front + ([x] + back), hpas, p)
  {
    hide Total, CostBefore;
    MovedToFront(kind, front, x, back, all, hpas, p);
    PermutedMembers(rest, front + back);
    TotalStep(kind, x, rest, hpas, p);
    TotalStep(kind, x, front + back, hpas, p);
    CostBeforeMembers(kind, x, rest, front + back, hpas, hpas, p);
  }

  /** The first workload of one order, and where another order has it. */
  lemma FirstFound(ws: seq<WorkloadSpec>, ws': seq<WorkloadSpec>)
    returns (rest: seq<WorkloadSpec>, front: seq<WorkloadSpec>, back: seq<WorkloadSpec>)
    requires ws != [] && multiset(ws) == multiset(ws')
    ensures ws == [ws[0]] + rest && ws' == front + ([ws[0]] + back) && multiset(rest) == multiset(front + back)
    ensures |rest| < |ws| && forall w :: w in rest || w in front ==> w in ws
  {
    hide SameMembers;
    PermutedMembers(ws, ws');
    var i := FirstIn(ws, ws');
    rest, front, back := ws[..0] + ws[1..], ws'[..i], ws'[i + 1..];
    SameRest(ws, 0, ws', i);
    CutAt(ws, 0);
    CutAt(ws', i);
    MembersOf(ws, ws');
  }

  lemma FirstIn(ws: seq<WorkloadSpec>, ws': seq<WorkloadSpec>) returns (i: nat)
    requires ws != [] && multiset(ws) == multiset(ws')
    ensures i < |ws'| && ws'[i] == ws[0] && ws[0] !in ws'[..i]
  {
    PermutedMembers(ws, ws');
    assert ws[0] in ws;
    i := FirstPlace(ws', ws[0]);
  }

  lemma MembersOf(ws: seq<WorkloadSpec>, ws': seq<WorkloadSpec>)
    requires SameMembers(ws, ws')
    ensures forall w :: w in ws' ==> w in ws
  {
  }

  lemma {:induction false} TotalPermuted(kind: string, ws: seq<WorkloadSpec>, ws': seq<WorkloadSpec>,
                                         all: seq<WorkloadSpec>, hpas: seq<HPA>, p: Prices)
    requires Indifferent(kind, all, hpas, p) && multiset(ws) == multiset(ws') && forall w :: w in ws ==> w in all
    ensures Total(kind, ws, hpas, p) == Total(kind, ws', hpas, p)
    decreases |ws|
  {
    hide Total, Indifferent;
    if ws == [] {
      PermutedEmpty(ws');
    } else {
      var rest, front, back := FirstFound(ws, ws');
      TotalPermuted(kind, rest, front + back, all, hpas, p);
      TotalPermutedStep(kind, ws[0], rest, front, back, all, hpas, p);
    }
  }

  lemma {:induction false} TotalAutoscalersPermuted(kind: string, ws: seq<WorkloadSpec>, hpas: seq<HPA>,
                                                    hpas': seq<HPA>, p: Prices)
    requires SameMembers(hpas, hpas') && forall w :: w in ws ==> SameUnderEach(kind, w, hpas, p)
    ensures Total(kind, ws, hpas, p) == Total(kind, ws, hpas', p)
  {
    if ws != [] {
      hide CostBefore, SameUnderEach;
      TotalAutoscalersPermuted(kind, ws[1..], hpas, hpas', p);
      assert ws == [ws[0]] + ws[1..];
      TotalStep(kind, ws[0], ws[1..], hpas, p);
      TotalStep(kind, ws[0], ws[1..], hpas', p);
      CostBeforeMembers(kind, ws[0], ws[1..], ws[1..], hpas, hpas', p);
    }
  }

  // ----- Two orders that differ in one place -----

  lemma CancelAdd(a: CostRange, b: CostRange, c: CostRange, d: CostRange)
    requires a == b && a.Add(c) == b.Add(d) && c.kind == d.kind
    ensures c == d
  {
  }

  lemma {:induction false} TotalKind(kind: string, ws: seq<WorkloadSpec>, hpas: seq<HPA>, p: Prices)
    ensures Total(kind, ws, hpas, p).kind == kind
  {
  }

  /** Earlier workloads do not see the two autoscalers that name a later one. */
  lemma SwappedUnseen(kind: string, y: WorkloadSpec, later: seq<WorkloadSpec>, w: WorkloadSpec, hpas: seq<HPA>,
                      g: HPA, h: HPA, p: Prices)
    requires w in later && Names(w.key, g.targetRef) && Names(w.key, h.targetRef)
    ensures CostBefore(kind, y, later, hpas + [g] + [h], p) == CostBefore(kind, y, later, hpas + [h] + [g], p)
  {
    FreeForWithout(y, later, hpas + [g], h);
    FreeForWithout(y, later, hpas, g);
    FreeForWithout(y, later, hpas + [h], g);
    FreeForWithout(y, later, hpas, h);
  }

  lemma FreeForWithout(y: WorkloadSpec, later: seq<WorkloadSpec>, hpas: seq<HPA>, h: HPA)
    requires !Free(y, later, h)
    ensures FreeFor(y, later, hpas + [h]) == FreeFor(y, later, hpas)
  {
    DropAppended(hpas, h);
  }

  lemma LastOfTwo(kind: string, w: WorkloadSpec, hpas: seq<HPA>, g: HPA, p: Prices)
    requires Names(w.key, g.targetRef)
    ensures Total(kind, [w], hpas + [g], p) == CostUnder(kind, w, g, p).Add(Zero(kind))
  {
    DropAppended(hpas, g);
    assert [w] + [] == [w];
    TotalStep(kind, w, [], hpas + [g], p);
  }

  /** If the order of two autoscalers that name the last workload does not show,
      they cost it the same. */
  lemma {:induction false} AutoscalerSwapShows(kind: string, front: seq<WorkloadSpec>, w: WorkloadSpec,
                                               hpas: seq<HPA>, g: HPA, h: HPA, p: Prices)
    requires Names(w.key, g.targetRef) && Names(w.key, h.targetRef)
    requires Total(kind, front + [w], hpas + [g] + [h], p) == Total(kind, front + [w], hpas + [h] + [g], p)
    ensures CostUnder(kind, w, g, p) == CostUnder(kind, w, h, p)
  {
    if front == [] {
      assert front + [w] == [w];
      LastOfTwo(kind, w, hpas + [g], h, p);
      LastOfTwo(kind, w, hpas + [h], g, p);
    } else {
      hide Total, CostBefore;
      var y, rest := front[0], front[1..] + [w];
      assert front + [w] == [y] + rest && w in rest;
      TotalStep(kind, y, rest, hpas + [g] + [h], p);
      TotalStep(kind, y, rest, hpas + [h] + [g], p);
      SwappedUnseen(kind, y, rest, w, hpas, g, h, p);
      TotalKind(kind, rest, hpas + [g] + [h], p);
      TotalKind(kind, rest, hpas + [h] + [g], p);
      CancelAdd(CostBefore(kind, y, rest, hpas + [g] + [h], p), CostBefore(kind, y, rest, hpas + [h] + [g], p),
                Total(kind, rest, hpas + [g] + [h], p), Total(kind, rest, hpas + [h] + [g], p));
      AutoscalerSwapShows(kind, front[1..], w, hpas, g, h, p);
    }
  }

  lemma {:induction false} FreeForMembers(w: WorkloadSpec, later: seq<WorkloadSpec>, later': seq<WorkloadSpec>,
                                          hpas: seq<HPA>)
    requires SameMembers(later, later')
    ensures FreeFor(w, later, hpas) == FreeFor(w, later', hpas)
  {
    if hpas != [] {
      FreeForMembers(w, later, later', DropLast(hpas));
    }
  }

  lemma TotalOfTwo(kind: string, v: WorkloadSpec, w: WorkloadSpec, h: HPA, hpas: seq<HPA>, p: Prices)
    requires SameUnderEach(kind, v, hpas, p) && SameUnderEach(kind, w, hpas, p)
    requires h in hpas && Names(v.key, h.targetRef) && Names(w.key, h.targetRef)
    ensures Total(kind, [v] + [w], hpas, p)
         == CostUnder(kind, v, LeftWith(v, w, h, hpas), p).Add(CostUnder(kind, w, h, p)).Add(Zero(kind))
  {
    hide CostUnder, LeftWith, FreeFor;
    assert [w] + [] == [w];
    TotalStep(kind, v, [w], hpas, p);
    TotalStep(kind, w, [], hpas, p);
    CostWithoutShared(kind, v, w, [], h, hpas, p);
    FreeDecides(kind, w, [], hpas, h, h, p);
    AddAssociates(CostUnder(kind, v, LeftWith(v, w, h, hpas), p), CostUnder(kind, w, h, p), Zero(kind));
  }

  /** If the order of the last two workloads, which one autoscaler names, does not
      show, they are exchangeable. */
  lemma {:induction false} WorkloadSwapShows(kind: string, front: seq<WorkloadSpec>, v: WorkloadSpec,
                                             w: WorkloadSpec, h: HPA, hpas: seq<HPA>, p: Prices)
    requires SameUnderEach(kind, v, hpas, p) && SameUnderEach(kind, w, hpas, p)
    requires h in hpas && Names(v.key, h.targetRef) && Names(w.key, h.targetRef)
    requires Total(kind, front + [v] + [w], hpas, p) == Total(kind, front + [w] + [v], hpas, p)
    ensures Exchangeable(kind, v, w, h, hpas, p)
  {
    hide Total, CostBefore, LeftWith, CostUnder, SameUnderEach, Names, FreeFor;
    if front == [] {
      assert front + [v] + [w] == [v] + [w] && front + [w] + [v] == [w] + [v];
      TotalOfTwo(kind, v, w, h, hpas, p);
      TotalOfTwo(kind, w, v, h, hpas, p);
    } else {
      var y, rest, rest' := front[0], front[1..] + [v] + [w], front[1..] + [w] + [v];
      assert front + [v] + [w] == [y] + rest && front + [w] + [v] == [y] + rest';
      TotalStep(kind, y, rest, hpas, p);
      TotalStep(kind, y, rest', hpas, p);
      SameCostBefore(kind, y, rest, rest', hpas, p);
      TotalKind(kind, rest, hpas, p);
      TotalKind(kind, rest', hpas, p);
      CancelAdd(CostBefore(kind, y, rest, hpas, p), CostBefore(kind, y, rest', hpas, p),
                Total(kind, rest, hpas, p), Total(kind, rest', hpas, p));
      WorkloadSwapShows(kind, front[1..], v, w, h, hpas, p);
    }
  }

  lemma SameCostBefore(kind: string, y: WorkloadSpec, later: seq<WorkloadSpec>, later': seq<WorkloadSpec>,
                       hpas: seq<HPA>, p: Prices)
    requires SameMembers(later, later')
    ensures CostBefore(kind, y, later, hpas, p) == CostBefore(kind, y, later', hpas, p)
  {
    FreeForMembers(y, later, later', hpas);
  }

  // ----- Orders of the documents -----

  ghost predicate AllIndifferent(l: Loaded, p: Prices) {
    && Indifferent(DEPLOYMENT, l.deployments, l.hpas, p)
    && Indifferent(REPLICA_SET, l.replicaSets, l.hpas, p)
    && Indifferent(STATEFUL_SET, l.statefulSets, l.hpas, p)
  }

  ghost predicate SameEstimateInEveryOrder(docs: seq<Document>, conf: Config, p: Prices) {
    forall other :: multiset(other) == multiset(docs)
                ==> Estimate(LoadAll(other, conf), p) == Estimate(LoadAll(docs, conf), p)
  }

  /** The range of a kind with workloads in the estimate of loaded objects. */
  function EstimatedRange(l: Loaded, kind: string, p: Prices): seq<CostRange>
    requires WorkloadKind(kind)
  {
    KindRange(kind, WorkloadCosts(kind, ListOf(Prepared(l), kind), p))
  }

  lemma RangeIsTotal(docs: seq<Document>, conf: Config, kind: string, p: Prices)
    requires WorkloadKind(kind)
    ensures var l := LoadAll(docs, conf);
            EstimatedRange(l, kind, p)
              == if ListOf(l, kind) == [] then [] else [Total(kind, ListOf(l, kind), l.hpas, p)]
  {
    hide LoadAll, Prepared, LinkAll, Total, Sum, Unlinked, WorkloadCost;
    var l := LoadAll(docs, conf);
    LoadedUnlinked(docs, conf, kind);
    PreparedList(l, kind);
    LinkedCostIsTotal(kind, ListOf(l, kind), l.hpas, p);
  }

  lemma EstimateParts(l: Loaded, p: Prices)
    ensures Estimate(l, p)
         == EstimatedRange(l, DEPLOYMENT, p) + EstimatedRange(l, REPLICA_SET, p) + EstimatedRange(l, STATEFUL_SET, p)
            + KindRange(DAEMON_SET, DaemonSetCosts(l.daemonSets, p))
            + KindRange(VOLUME_CLAIM, ClaimCosts(l.volumeClaims, p))
  {
    hide LinkAll, KindRange, WorkloadCosts, DaemonSetCosts, ClaimCosts;
  }

  lemma SameTotals(kind: string, ws: seq<WorkloadSpec>, ws': seq<WorkloadSpec>, hpas: seq<HPA>, hpas': seq<HPA>,
                   p: Prices)
    requires Indifferent(kind, ws, hpas, p) && multiset(ws) == multiset(ws') && multiset(hpas) == multiset(hpas')
    ensures Total(kind, ws, hpas, p) == Total(kind, ws', hpas', p)
    ensures ws == [] <==> ws' == []
  {
    hide Total, SameUnderEach, Exchangeable;
    TotalPermuted(kind, ws, ws', ws, hpas, p);
    PermutedMembers(ws, ws');
    PermutedMembers(hpas, hpas');
    TotalAutoscalersPermuted(kind, ws', hpas, hpas', p);
    assert |ws| == |multiset(ws)| == |ws'|;
  }

  lemma SameRange(docs: seq<Document>, other: seq<Document>, conf: Config, kind: string, p: Prices)
    requires WorkloadKind(kind) && multiset(docs) == multiset(other)
    requires Indifferent(kind, ListOf(LoadAll(docs, conf), kind), LoadAll(docs, conf).hpas, p)
    ensures EstimatedRange(LoadAll(docs, conf), kind, p) == EstimatedRange(LoadAll(other, conf), kind, p)
  {
    hide LoadAll, Total, Indifferent, EstimatedRange;
    LoadPermuted(docs, other, conf);
    RangeIsTotal(docs, conf, kind, p);
    RangeIsTotal(other, conf, kind, p);
    SameTotals(kind, ListOf(LoadAll(docs, conf), kind), ListOf(LoadAll(other, conf), kind),
               LoadAll(docs, conf).hpas, LoadAll(other, conf).hpas, p);
  }

  lemma IndifferentSameEstimate(docs: seq<Document>, other: seq<Document>, conf: Config, p: Prices)
    requires multiset(docs) == multiset(other) && AllIndifferent(LoadAll(docs, conf), p)
    ensures Estimate(LoadAll(docs, conf), p) == Estimate(LoadAll(other, conf), p)
  {
    hide LoadAll, Estimate, Indifferent, EstimatedRange, KindRange;
    var l, l' := LoadAll(docs, conf), LoadAll(other, conf);
    LoadPermuted(docs, other, conf);
    SameRange(docs, other, conf, DEPLOYMENT, p);
    SameRange(docs, other, conf, REPLICA_SET, p);
    SameRange(docs, other, conf, STATEFUL_SET, p);
    DaemonSetRangePermuted(l.daemonSets, l'.daemonSets, p);
    ClaimRangePermuted(l.volumeClaims, l'.volumeClaims, p);
    EstimateParts(l, p);
    EstimateParts(l', p);
  }

  lemma FirstOfConcat<T>(a: seq<T>, b: seq<T>, c: seq<T>, d: seq<T>)
    requires |a| == |c| && a + b == c + d
    ensures a == c && b == d
  {
    assert a == (a + b)[..|a|] && b == (a + b)[|a|..];
    assert c == (c + d)[..|c|] && d == (c + d)[|c|..];
  }

  lemma SameParts<T>(a1: seq<T>, a2: seq<T>, a3: seq<T>, a4: seq<T>, a5: seq<T>,
                     b1: seq<T>, b2: seq<T>, b3: seq<T>, b4: seq<T>, b5: seq<T>)
    requires |a1| == |b1| && |a2| == |b2| && |a3| == |b3| && a1 + a2 + a3 + a4 + a5 == b1 + b2 + b3 + b4 + b5
    ensures a1 == b1 && a2 == b2 && a3 == b3
  {
    assert a1 + (a2 + (a3 + (a4 + a5))) == a1 + a2 + a3 + a4 + a5;
    assert b1 + (b2 + (b3 + (b4 + b5))) == b1 + b2 + b3 + b4 + b5;
    FirstOfConcat(a1, a2 + (a3 + (a4 + a5)), b1, b2 + (b3 + (b4 + b5)));
    FirstOfConcat(a2, a3 + (a4 + a5), b2, b3 + (b4 + b5));
    FirstOfConcat(a3, a4 + a5, b3, b4 + b5);
  }

  /** Equal estimates of the same documents in two orders have equal totals in each kind. */
  lemma SameEstimateSameTotal(a: seq<Document>, b: seq<Document>, conf: Config, kind: string, p: Prices)
    requires WorkloadKind(kind) && multiset(a) == multiset(b)
    requires Estimate(LoadAll(a, conf), p) == Estimate(LoadAll(b, conf), p)
    requires ListOf(LoadAll(a, conf), kind) != []
    ensures Total(kind, ListOf(LoadAll(a, conf), kind), LoadAll(a, conf).hpas, p)
         == Total(kind, ListOf(LoadAll(b, conf), kind), LoadAll(b, conf).hpas, p)
  {
    hide LoadAll, Estimate, EstimatedRange, KindRange, Total, DaemonSetCosts, ClaimCosts;
    var l, l' := LoadAll(a, conf), LoadAll(b, conf);
    SameSizes(a, b, conf, DEPLOYMENT, p);
    SameSizes(a, b, conf, REPLICA_SET, p);
    SameSizes(a, b, conf, STATEFUL_SET, p);
    EstimateParts(l, p);
    EstimateParts(l', p);
    SameParts(EstimatedRange(l, DEPLOYMENT, p), EstimatedRange(l, REPLICA_SET, p), EstimatedRange(l, STATEFUL_SET, p),
              KindRange(DAEMON_SET, DaemonSetCosts(l.daemonSets, p)),
              KindRange(VOLUME_CLAIM, ClaimCosts(l.volumeClaims, p)),
              EstimatedRange(l', DEPLOYMENT, p), EstimatedRange(l', REPLICA_SET, p),
              EstimatedRange(l', STATEFUL_SET, p), KindRange(DAEMON_SET, DaemonSetCosts(l'.daemonSets, p)),
              KindRange(VOLUME_CLAIM, ClaimCosts(l'.volumeClaims, p)));
    RangeIsTotal(a, conf, kind, p);
    RangeIsTotal(b, conf, kind, p);
  }

  lemma SameSizes(a: seq<Document>, b: seq<Document>, conf: Config, kind: string, p: Prices)
    requires WorkloadKind(kind) && multiset(a) == multiset(b)
    ensures |EstimatedRange(LoadAll(a, conf), kind, p)| == |EstimatedRange(LoadAll(b, conf), kind, p)|
    ensures ListOf(LoadAll(a, conf), kind) == [] <==> ListOf(LoadAll(b, conf), kind) == []
  {
    hide LoadAll, EstimatedRange, Total;
    LoadPermuted(a, b, conf);
    RangeIsTotal(a, conf, kind, p);
    RangeIsTotal(b, conf, kind, p);
    var ws, ws' := ListOf(LoadAll(a, conf), kind), ListOf(LoadAll(b, conf), kind);
    assert |ws| == |multiset(ws)| == |ws'|;
  }

  // ----- Order-free estimates are indifferent -----

  lemma LoadedEnd(front: seq<Document>, d: Document, conf: Config, kind: string)
    requires WorkloadKind(kind)
    ensures var l, f, one := LoadAll(front + [d], conf), LoadAll(front, conf), LoadOne(d, conf);
            ListOf(l, kind) == ListOf(f, kind) + ListOf(one, kind) && l.hpas == f.hpas + one.hpas
  {
    hide LoadOne;
    DropAppended(front, d);
  }

  lemma OnlyWorkload(d: Document, conf: Config, kind: string)
    requires WorkloadKind(kind) && !d.HpaDoc?
    ensures LoadOne(d, conf).hpas == []
  {
  }

  /** Two autoscalers that name one workload, loaded in either order after it. */
  lemma AutoscalersAgree(docs: seq<Document>, conf: Config, kind: string, w: WorkloadSpec, g: HPA, h: HPA, p: Prices)
    requires WorkloadKind(kind) && SameEstimateInEveryOrder(docs, conf, p)
    requires w in ListOf(LoadAll(docs, conf), kind) && g in LoadAll(docs, conf).hpas && h in LoadAll(docs, conf).hpas
    requires g != h && Names(w.key, g.targetRef) && Names(w.key, h.targetRef)
    ensures CostUnder(kind, w, g, p) == CostUnder(kind, w, h, p)
  {
    hide LoadAll, LoadOne, Estimate, ListOf, Total, CostUnder, Names;
    var x := DocumentOf(docs, conf, kind, w);
    var dg := AutoscalerDocument(docs, conf, g);
    var dh := AutoscalerDocument(docs, conf, h);
    var rest := WithLastTwo(docs, dg, dh);
    assert x in multiset(rest + [dg] + [dh]);
    var last := WithLast(rest, x);
    SplitLast(last);
    var front := DropLast(last);
    var a, b := front + [x] + [dg] + [dh], front + [x] + [dh] + [dg];
    assert multiset(a) == multiset(docs) == multiset(b);
    EndsInAutoscalers(front, x, dg, dh, conf, kind, w, g, h);
    EndsInAutoscalers(front, x, dh, dg, conf, kind, w, h, g);
    SameEstimateSameTotal(a, b, conf, kind, p);
    AutoscalerSwapShows(kind, ListOf(LoadAll(front, conf), kind), w, LoadAll(front, conf).hpas, g, h, p);
  }

  lemma EndsInAutoscalers(front: seq<Document>, x: Document, y: Document, z: Document, conf: Config, kind: string,
                          w: WorkloadSpec, g: HPA, h: HPA)
    requires WorkloadKind(kind) && !x.HpaDoc? && y.HpaDoc? && z.HpaDoc? && ListOf(LoadOne(x, conf), kind) == [w]
    requires LoadOne(y, conf).hpas == [g] && LoadOne(z, conf).hpas == [h]
    ensures var l := LoadAll(front + [x] + [y] + [z], conf);
            && ListOf(l, kind) == ListOf(LoadAll(front, conf), kind) + [w]
            && l.hpas == LoadAll(front, conf).hpas + [g] + [h]
  {
    hide LoadAll, LoadOne, ListOf;
    LoadedEnd(front, x, conf, kind);
    LoadedEnd(front + [x], y, conf, kind);
    LoadedEnd(front + [x] + [y], z, conf, kind);
    OnlyWorkload(x, conf, kind);
    NoWorkload(y, conf, kind);
    NoWorkload(z, conf, kind);
  }

  lemma EndsInWorkloads(front: seq<Document>, x: Document, y: Document, conf: Config, kind: string,
                        v: WorkloadSpec, w: WorkloadSpec)
    requires WorkloadKind(kind) && !x.HpaDoc? && !y.HpaDoc?
    requires ListOf(LoadOne(x, conf), kind) == [v] && ListOf(LoadOne(y, conf), kind) == [w]
    ensures var l := LoadAll(front + [x] + [y], conf);
            && ListOf(l, kind) == ListOf(LoadAll(front, conf), kind) + [v] + [w]
            && l.hpas == LoadAll(front, conf).hpas
  {
    hide LoadAll, LoadOne, ListOf;
    LoadedEnd(front, x, conf, kind);
    LoadedEnd(front + [x], y, conf, kind);
    OnlyWorkload(x, conf, kind);
    OnlyWorkload(y, conf, kind);
  }

  /** Two workloads that one autoscaler names, loaded last in either order. */
  lemma WorkloadsExchangeable(docs: seq<Document>, conf: Config, kind: string, v: WorkloadSpec, w: WorkloadSpec,
                              h: HPA, p: Prices)
    requires WorkloadKind(kind) && SameEstimateInEveryOrder(docs, conf, p)
    requires v in ListOf(LoadAll(docs, conf), kind) && w in ListOf(LoadAll(docs, conf), kind) && v != w
    requires h in LoadAll(docs, conf).hpas && Names(v.key, h.targetRef) && Names(w.key, h.targetRef)
    requires SameUnderEach(kind, v, LoadAll(docs, conf).hpas, p) && SameUnderEach(kind, w, LoadAll(docs, conf).hpas, p)
    ensures Exchangeable(kind, v, w, h, LoadAll(docs, conf).hpas, p)
  {
    hide LoadAll, LoadOne, Estimate, ListOf, Total, CostUnder, Names;
    var x := DocumentOf(docs, conf, kind, v);
    var y := DocumentOf(docs, conf, kind, w);
    var front := WithLastTwo(docs, x, y);
    var a, b := front + [x] + [y], front + [y] + [x];
    assert multiset(a) == multiset(docs) == multiset(b);
    EndsInWorkloads(front, x, y, conf, kind, v, w);
    EndsInWorkloads(front, y, x, conf, kind, w, v);
    SameEstimateSameTotal(a, b, conf, kind, p);
    var hpas, hpas' := LoadAll(docs, conf).hpas, LoadAll(front, conf).hpas;
    SameAutoscalers(docs, a, conf);
    SameAutoscalers(a, docs, conf);
    assert SameMembers(hpas, hpas');
    WorkloadSwapShows(kind, ListOf(LoadAll(front, conf), kind), v, w, h, hpas', p);
    assert HasOwn(v, w, hpas) == HasOwn(v, w, hpas') && HasOwn(w, v, hpas) == HasOwn(w, v, hpas');
  }

  lemma OrderFreeIsIndifferent(docs: seq<Document>, conf: Config, kind: string, p: Prices)
    requires WorkloadKind(kind) && SameEstimateInEveryOrder(docs, conf, p)
    ensures Indifferent(kind, ListOf(LoadAll(docs, conf), kind), LoadAll(docs, conf).hpas, p)
  {
    hide LoadAll, ListOf, Names, CostUnder, LeftWith, SameEstimateInEveryOrder;
    var ws, hpas := ListOf(LoadAll(docs, conf), kind), LoadAll(docs, conf).hpas;
    forall w | w in ws ensures SameUnderEach(kind, w, hpas, p) {
      forall g, h | g in hpas && h in hpas && Names(w.key, g.targetRef) && Names(w.key, h.targetRef)
        ensures CostUnder(kind, w, g, p) == CostUnder(kind, w, h, p)
      {
        if g != h {
          AutoscalersAgree(docs, conf, kind, w, g, h, p);
        }
      }
    }
    forall v, w, h | v in ws && w in ws && h in hpas && Names(v.key, h.targetRef) && Names(w.key, h.targetRef)
      ensures Exchangeable(kind, v, w, h, hpas, p)
    {
      if v != w {
        WorkloadsExchangeable(docs, conf, kind, v, w, h, p);
      }
    }
  }

  /** The estimate is the same in every order of the documents exactly when, in
      each kind, all autoscalers that name a workload cost it the same and any two
      workloads that one autoscaler names are exchangeable. */
  lemma SameEstimateIffIndifferent(docs: seq<Document>, conf: Config, p: Prices)
    ensures SameEstimateInEveryOrder(docs, conf, p) <==> AllIndifferent(LoadAll(docs, conf), p)
  {
    hide LoadAll, Estimate, Indifferent;
    if AllIndifferent(LoadAll(docs, conf), p) {
      forall other | multiset(other) == multiset(docs)
        ensures Estimate(LoadAll(other, conf), p) == Estimate(LoadAll(docs, conf), p)
      {
        IndifferentSameEstimate(docs, other, conf, p);
      }
    }
    if SameEstimateInEveryOrder(docs, conf, p) {
      OrderFreeIsIndifferent(docs, conf, DEPLOYMENT, p);
      OrderFreeIsIndifferent(docs, conf, REPLICA_SET, p);
      OrderFreeIsIndifferent(docs, conf, STATEFUL_SET, p);
    }
  }

  // ----- Special cases -----

  ghost predicate NoSharedName(l: Loaded) {
    forall h :: h in l.hpas ==>
      NamesOne(h.targetRef, l.deployments) && NamesOne(h.targetRef, l.replicaSets)
      && NamesOne(h.targetRef, l.statefulSets)
  }

  ghost predicate AllSameUnderEach(kind: string, ws: seq<WorkloadSpec>, hpas: seq<HPA>, p: Prices) {
    forall w :: w in ws ==> SameUnderEach(kind, w, hpas, p)
  }

  lemma UnsharedIndifferent(kind: string, ws: seq<WorkloadSpec>, hpas: seq<HPA>, p: Prices)
    requires forall h :: h in hpas ==> NamesOne(h.targetRef, ws)
    ensures Indifferent(kind, ws, hpas, p) <==> AllSameUnderEach(kind, ws, hpas, p)
  {
    hide Names, CostUnder;
  }

  /** Where no autoscaler names two different workloads, the estimate is the same
      in every order exactly when all autoscalers of a workload cost it the same. */
  lemma UnsharedSameEstimateIff(docs: seq<Document>, conf: Config, p: Prices)
    requires NoSharedName(LoadAll(docs, conf))
    ensures SameEstimateInEveryOrder(docs, conf, p)
            <==> var l := LoadAll(docs, conf);
                 && AllSameUnderEach(DEPLOYMENT, l.deployments, l.hpas, p)
                 && AllSameUnderEach(REPLICA_SET, l.replicaSets, l.hpas, p)
                 && AllSameUnderEach(STATEFUL_SET, l.statefulSets, l.hpas, p)
  {
    hide LoadAll, Estimate, Indifferent, AllSameUnderEach, SameEstimateInEveryOrder;
    var l := LoadAll(docs, conf);
    SameEstimateIffIndifferent(docs, conf, p);
    UnsharedIndifferent(DEPLOYMENT, l.deployments, l.hpas, p);
    UnsharedIndifferent(REPLICA_SET, l.replicaSets, l.hpas, p);
    UnsharedIndifferent(STATEFUL_SET, l.statefulSets, l.hpas, p);
  }
}
