/** Which autoscaler a workload ends up with, and when that depends on the order of loading. */
module Linking {
  import opened Collections
  import opened Keys
  import opened Workloads

  type Key = key: string | '|' in key witness "|"

  datatype WorkloadSpec = WorkloadSpec(key: Key, replicas: int, containers: seq<Container>, hpa: HPA)

  /** The last of the keys that `ref` names, or -1: later workloads overwrite the entry. */
  function Latest(keys: seq<Key>, ref: string): (i: int)
    ensures -1 <= i < |keys|
    ensures i >= 0 ==> Names(keys[i], ref)
    ensures forall k :: i < k < |keys| ==> !Names(keys[k], ref)
  {
    if keys == [] then -1
    else if Names(Last(keys), ref) then |keys| - 1
    else Latest(DropLast(keys), ref)
  }

  /** A workload loaded later takes over the references that name it. */
  lemma LatestAppended(keys: seq<Key>, key: Key, ref: string)
    ensures Latest(keys + [key], ref) == if Names(key, ref) then |keys| else Latest(keys, ref)
  {
    DropAppended(keys, key);
  }

  function KeysOf(ws: seq<WorkloadSpec>): seq<Key> {
    seq(|ws|, i requires 0 <= i < |ws| => ws[i].key)
  }

  function LinkOne(ws: seq<WorkloadSpec>, hpa: HPA): (linked: seq<WorkloadSpec>)
    ensures |linked| == |ws| && KeysOf(linked) == KeysOf(ws)
  {
    var i := Latest(KeysOf(ws), hpa.targetRef);
    if i < 0 then ws
    else
      var linked := ws[i := ws[i].(hpa := hpa)];
      assert KeysOf(linked) == KeysOf(ws);
      linked
  }

  /** Every autoscaler in turn is given to the workload its target names. */
  function LinkAll(ws: seq<WorkloadSpec>, hpas: seq<HPA>): (linked: seq<WorkloadSpec>)
    ensures |linked| == |ws| && KeysOf(linked) == KeysOf(ws)
  {
    if hpas == [] then ws else LinkOne(LinkAll(ws, DropLast(hpas)), Last(hpas))
  }

  /** The last autoscaler that resolves to the i-th workload, if any. */
  function Assigned(keys: seq<Key>, hpas: seq<HPA>, i: nat, current: HPA): HPA {
    if hpas == [] then current
    else if Latest(keys, Last(hpas).targetRef) == i then Last(hpas)
    else Assigned(keys, DropLast(hpas), i, current)
  }

  lemma {:induction false} LinkAllAssigns(ws: seq<WorkloadSpec>, hpas: seq<HPA>, i: nat)
    requires i < |ws|
    ensures LinkAll(ws, hpas)[i] == ws[i].(hpa := Assigned(KeysOf(ws), hpas, i, ws[i].hpa))
  {
    if hpas != [] {
      LinkAllAssigns(ws, DropLast(hpas), i);
    }
  }

  lemma {:induction false} AssignedIs(keys: seq<Key>, hpas: seq<HPA>, i: nat, current: HPA)
    ensures var h := Assigned(keys, hpas, i, current);
            || (h in hpas && Latest(keys, h.targetRef) == i)
            || (h == current && forall x :: x in hpas ==> Latest(keys, x.targetRef) != i)
  {
    if hpas != [] {
      SplitLast(hpas);
      AssignedIs(keys, DropLast(hpas), i, current);
    }
  }

  /** Linking again changes nothing. */
  lemma LinkingTwice(ws: seq<WorkloadSpec>, hpas: seq<HPA>)
    ensures LinkAll(LinkAll(ws, hpas), hpas) == LinkAll(ws, hpas)
  {
    var once := LinkAll(ws, hpas);
    forall i: nat | i < |ws| ensures LinkAll(once, hpas)[i] == once[i] {
      LinkAllAssigns(ws, hpas, i);
      LinkAllAssigns(once, hpas, i);
      AssignedTwice(KeysOf(ws), hpas, i, ws[i].hpa);
    }
  }

  lemma AssignedTwice(keys: seq<Key>, hpas: seq<HPA>, i: nat, current: HPA)
    ensures Assigned(keys, hpas, i, Assigned(keys, hpas, i, current)) == Assigned(keys, hpas, i, current)
  {
    AssignedAnyway(keys, hpas, i, current, Assigned(keys, hpas, i, current));
    AssignedIs(keys, hpas, i, current);
  }

  /** What a workload had before matters only if no autoscaler resolves to it. */
  lemma {:induction false} AssignedAnyway(keys: seq<Key>, hpas: seq<HPA>, i: nat, a: HPA, b: HPA)
    ensures Assigned(keys, hpas, i, a) == Assigned(keys, hpas, i, b)
            || (Assigned(keys, hpas, i, a) == a && Assigned(keys, hpas, i, b) == b)
  {
    if hpas != [] {
      AssignedAnyway(keys, DropLast(hpas), i, a, b);
    }
  }

  // ----- The order of the autoscalers -----

  /** No two different autoscalers resolve to one workload. */
  ghost predicate OneEach(keys: seq<Key>, hpas: seq<HPA>) {
    forall g, h :: g in hpas && h in hpas && 0 <= Latest(keys, g.targetRef) == Latest(keys, h.targetRef) ==> g == h
  }

  ghost predicate OrderFree(ws: seq<WorkloadSpec>, hpas: seq<HPA>) {
    forall other: seq<HPA> :: multiset(other) == multiset(hpas) ==> LinkAll(ws, other) == LinkAll(ws, hpas)
  }

  lemma AssignedPermuted(keys: seq<Key>, hpas: seq<HPA>, other: seq<HPA>, i: nat, current: HPA)
    requires OneEach(keys, hpas) && multiset(other) == multiset(hpas)
    ensures Assigned(keys, other, i, current) == Assigned(keys, hpas, i, current)
  {
    AssignedIs(keys, hpas, i, current);
    AssignedIs(keys, other, i, current);
    assert forall h :: h in hpas <==> h in multiset(other);
  }

  /** Some permutation gives the workload to autoscaler `h`. */
  lemma LastWins(ws: seq<WorkloadSpec>, hpas: seq<HPA>, h: HPA) returns (other: seq<HPA>)
    requires h in hpas && Latest(KeysOf(ws), h.targetRef) >= 0
    ensures multiset(other) == multiset(hpas)
    ensures LinkAll(ws, other)[Latest(KeysOf(ws), h.targetRef)].hpa == h
  {
    other := WithLast(hpas, h);
  }

  /** Linking gives the same result for every order of the autoscalers exactly
      when no two different ones resolve to one workload. */
  lemma OrderFreeIffOneEach(ws: seq<WorkloadSpec>, hpas: seq<HPA>)
    ensures OrderFree(ws, hpas) <==> OneEach(KeysOf(ws), hpas)
  {
    if OneEach(KeysOf(ws), hpas) {
      forall other: seq<HPA> | multiset(other) == multiset(hpas)
        ensures LinkAll(ws, other) == LinkAll(ws, hpas)
      {
        forall i: nat | i < |ws| ensures LinkAll(ws, other)[i] == LinkAll(ws, hpas)[i] {
          LinkAllAssigns(ws, other, i);
          LinkAllAssigns(ws, hpas, i);
          AssignedPermuted(KeysOf(ws), hpas, other, i, ws[i].hpa);
        }
      }
    } else {
      var g, h :| g in hpas && h in hpas && g != h
                  && 0 <= Latest(KeysOf(ws), g.targetRef) == Latest(KeysOf(ws), h.targetRef);
      var a := LastWins(ws, hpas, g);
      var b := LastWins(ws, hpas, h);
      assert LinkAll(ws, a) != LinkAll(ws, b);
    }
  }

  // ----- The order of workloads and autoscalers together -----

  /** The last autoscaler that names the workload, wherever the workload is. */
  function Pick(w: WorkloadSpec, hpas: seq<HPA>): (picked: WorkloadSpec)
    ensures picked == w.(hpa := picked.hpa)
  {
    if hpas == [] then w
    else if Names(w.key, Last(hpas).targetRef) then w.(hpa := Last(hpas))
    else Pick(w, DropLast(hpas))
  }

  /** No two different autoscalers name the workload. */
  ghost predicate NamedOnce(w: WorkloadSpec, hpas: seq<HPA>) {
    forall g, h :: g in hpas && h in hpas && Names(w.key, g.targetRef) && Names(w.key, h.targetRef) ==> g == h
  }

  /** The reference names no two different workloads. */
  ghost predicate NamesOne(ref: string, ws: seq<WorkloadSpec>) {
    forall v, w :: v in ws && w in ws && Names(v.key, ref) && Names(w.key, ref) ==> v == w
  }

  ghost predicate Unambiguous(ws: seq<WorkloadSpec>, hpas: seq<HPA>) {
    && (forall h :: h in hpas ==> NamesOne(h.targetRef, ws))
    && (forall w :: w in ws ==> NamedOnce(w, hpas))
  }

  /** As loaded: no workload has an autoscaler yet, and every autoscaler is one. */
  ghost predicate Unlinked(ws: seq<WorkloadSpec>, hpas: seq<HPA>) {
    (forall w :: w in ws ==> w.hpa == NO_HPA) && NO_HPA !in hpas
  }

  /** What the i-th workload becomes if references are unambiguous: of equal
      workloads the last is linked. */
  function PickAt(ws: seq<WorkloadSpec>, hpas: seq<HPA>, i: nat): WorkloadSpec
    requires i < |ws|
  {
    if ws[i] in ws[i + 1..] then ws[i] else Pick(ws[i], hpas)
  }

  function PickAll(ws: seq<WorkloadSpec>, hpas: seq<HPA>): seq<WorkloadSpec> {
    seq(|ws|, i requires 0 <= i < |ws| => PickAt(ws, hpas, i))
  }

  lemma LatestIffLastCopy(ws: seq<WorkloadSpec>, i: nat, ref: string)
    requires NamesOne(ref, ws) && i < |ws|
    ensures Latest(KeysOf(ws), ref) == i <==> Names(ws[i].key, ref) && ws[i] !in ws[i + 1..]
  {
    var k := Latest(KeysOf(ws), ref);
    assert KeysOf(ws)[i] == ws[i].key;
    if Names(ws[i].key, ref) {
      assert k >= i && ws[k] in ws && ws[i] in ws && KeysOf(ws)[k] == ws[k].key;
      assert k > i ==> ws[i + 1..][k - i - 1] == ws[i];
      if ws[i] in ws[i + 1..] {
        var m :| 0 <= m < |ws[i + 1..]| && ws[i + 1..][m] == ws[i];
        assert KeysOf(ws)[i + 1 + m] == ws[i].key;
      }
    }
  }

  lemma {:induction false} LinkAllPicks(ws: seq<WorkloadSpec>, hpas: seq<HPA>, i: nat)
    requires i < |ws| && forall h :: h in hpas ==> NamesOne(h.targetRef, ws)
    ensures LinkAll(ws, hpas)[i] == PickAt(ws, hpas, i)
  {
    if hpas != [] {
      hide NamesOne;
      SplitLast(hpas);
      LinkAllPicks(ws, DropLast(hpas), i);
      LatestIffLastCopy(ws, i, Last(hpas).targetRef);
    }
  }

  lemma {:induction false} PickIs(w: WorkloadSpec, hpas: seq<HPA>)
    ensures || (exists h :: h in hpas && Names(w.key, h.targetRef) && Pick(w, hpas) == w.(hpa := h))
            || (Pick(w, hpas) == w && forall h :: h in hpas ==> !Names(w.key, h.targetRef))
  {
    if hpas != [] {
      SplitLast(hpas);
      PickIs(w, DropLast(hpas));
    }
  }

  lemma PickPermuted(w: WorkloadSpec, hpas: seq<HPA>, other: seq<HPA>)
    requires NamedOnce(w, hpas) && multiset(hpas) == multiset(other)
    ensures Pick(w, hpas) == Pick(w, other)
  {
    PickIs(w, hpas);
    PickIs(w, other);
    assert forall h :: h in hpas <==> h in multiset(other);
  }

  /** What a workload becomes if `others` are loaded after it. */
  function Becomes(w: WorkloadSpec, others: multiset<WorkloadSpec>, hpas: seq<HPA>): WorkloadSpec {
    if w in others then w else Pick(w, hpas)
  }

  /** Taking out the first copy of a workload leaves what the others become. */
  lemma PickAllWithout(ws: seq<WorkloadSpec>, hpas: seq<HPA>, i: nat)
    requires i < |ws| && ws[i] !in ws[..i]
    ensures var rest := ws[..i] + ws[i + 1..];
            multiset(PickAll(ws, hpas))
              == multiset(PickAll(rest, hpas)) + multiset{Becomes(ws[i], multiset(rest), hpas)}
  {
    hide Pick;
    var rest := ws[..i] + ws[i + 1..];
    var all, fewer := PickAll(ws, hpas), PickAll(rest, hpas);
    forall k: nat | k < i ensures all[k] == fewer[k] {
      assert ws[k] == ws[..i][k];
      assert ws[k + 1..] == ws[k + 1..i] + [ws[i]] + ws[i + 1..];
      assert rest[k + 1..] == ws[k + 1..i] + ws[i + 1..];
    }
    forall k: nat | i < k < |ws| ensures all[k] == fewer[k - 1] {
      assert ws[k + 1..] == rest[k..];
    }
    assert fewer == all[..i] + all[i + 1..];
    TakeOut(all, i);
    assert ws[i] in ws[i + 1..] <==> ws[i] in multiset(rest);
  }

  /** A member of a sequence has a first place in it. */
  lemma FirstPlace(ws: seq<WorkloadSpec>, w: WorkloadSpec) returns (i: nat)
    requires w in ws
    ensures i < |ws| && ws[i] == w && w !in ws[..i]
  {
    i := 0;
    while ws[i] != w
      invariant i < |ws| && w !in ws[..i] && w in ws[i..]
      decreases |ws| - i
    {
      i := i + 1;
    }
  }

  lemma PickAllStep(ws: seq<WorkloadSpec>, i: nat, ws': seq<WorkloadSpec>, k: nat, hpas: seq<HPA>)
    requires i < |ws| && k < |ws'| && ws[i] == ws'[k] && ws[i] !in ws[..i] && ws'[k] !in ws'[..k]
    requires multiset(ws[..i] + ws[i + 1..]) == multiset(ws'[..k] + ws'[k + 1..])
    requires multiset(PickAll(ws[..i] + ws[i + 1..], hpas)) == multiset(PickAll(ws'[..k] + ws'[k + 1..], hpas))
    ensures multiset(PickAll(ws, hpas)) == multiset(PickAll(ws', hpas))
  {
    hide PickAll, Becomes;
    PickAllWithout(ws, hpas, i);
    PickAllWithout(ws', hpas, k);
  }

  lemma {:induction false} PickAllPermuted(ws: seq<WorkloadSpec>, ws': seq<WorkloadSpec>, hpas: seq<HPA>)
    requires multiset(ws) == multiset(ws')
    ensures multiset(PickAll(ws, hpas)) == multiset(PickAll(ws', hpas))
  {
    if ws == [] {
      PermutedEmpty(ws');
    } else {
      hide PickAll;
      assert ws[0] in multiset(ws');
      var i := FirstPlace(ws', ws[0]);
      SameRest(ws, 0, ws', i);
      PickAllPermuted(ws[..0] + ws[1..], ws'[..i] + ws'[i + 1..], hpas);
      PickAllStep(ws, 0, ws', i, hpas);
    }
  }

  lemma LinkAllIsPickAll(ws: seq<WorkloadSpec>, hpas: seq<HPA>)
    requires forall h :: h in hpas ==> NamesOne(h.targetRef, ws)
    ensures LinkAll(ws, hpas) == PickAll(ws, hpas)
  {
    hide NamesOne, Pick;
    forall i: nat | i < |ws| ensures LinkAll(ws, hpas)[i] == PickAll(ws, hpas)[i] {
      LinkAllPicks(ws, hpas, i);
    }
  }

  lemma PickAllAutoscalersPermuted(ws: seq<WorkloadSpec>, hpas: seq<HPA>, hpas': seq<HPA>)
    requires multiset(hpas) == multiset(hpas') && forall w :: w in ws ==> NamedOnce(w, hpas)
    ensures PickAll(ws, hpas) == PickAll(ws, hpas')
  {
    hide NamedOnce, Pick;
    forall i: nat | i < |ws| ensures PickAll(ws, hpas)[i] == PickAll(ws, hpas')[i] {
      PickPermuted(ws[i], hpas, hpas');
    }
  }

  /** Unambiguous references link alike in every order of both. */
  lemma LinkedPermuted(ws: seq<WorkloadSpec>, ws': seq<WorkloadSpec>, hpas: seq<HPA>, hpas': seq<HPA>)
    requires multiset(ws) == multiset(ws') && multiset(hpas) == multiset(hpas') && Unambiguous(ws, hpas)
    ensures multiset(LinkAll(ws, hpas)) == multiset(LinkAll(ws', hpas'))
  {
    hide PickAll, NamedOnce, Names;
    assert forall h :: h in hpas' <==> h in multiset(hpas);
    assert forall w :: w in ws' <==> w in multiset(ws);
    LinkAllIsPickAll(ws, hpas);
    LinkAllIsPickAll(ws', hpas');
    PickAllAutoscalersPermuted(ws, hpas, hpas');
    PickAllPermuted(ws, ws', hpas');
  }

  // ----- Ambiguous references depend on the order -----

  lemma LastResolves(ws: seq<WorkloadSpec>, ref: string)
    requires ws != [] && Names(Last(ws).key, ref)
    ensures Latest(KeysOf(ws), ref) == |ws| - 1
  {
    assert KeysOf(ws)[|ws| - 1] == Last(ws).key;
  }

  /** The workload loaded last gets the autoscaler loaded last that names it. */
  lemma LastIsLinked(ws: seq<WorkloadSpec>, hpas: seq<HPA>)
    requires ws != [] && hpas != [] && Names(Last(ws).key, Last(hpas).targetRef)
    ensures Last(ws).(hpa := Last(hpas)) in LinkAll(ws, hpas)
  {
    LastResolves(ws, Last(hpas).targetRef);
    LinkAllAssigns(ws, hpas, |ws| - 1);
    assert LinkAll(ws, hpas)[|ws| - 1] == Last(ws).(hpa := Last(hpas));
  }

  /** Only the workload loaded last can get an autoscaler that names it. */
  lemma OnlyLastIsLinked(ws: seq<WorkloadSpec>, hpas: seq<HPA>, w: WorkloadSpec, h: HPA)
    requires Unlinked(ws, hpas) && h in hpas && w.hpa == NO_HPA
    requires ws != [] && Names(Last(ws).key, h.targetRef) && w.(hpa := h) in LinkAll(ws, hpas)
    ensures w == Last(ws) && Assigned(KeysOf(ws), hpas, |ws| - 1, NO_HPA) == h
  {
    LastResolves(ws, h.targetRef);
    var i: nat :| i < |ws| && LinkAll(ws, hpas)[i] == w.(hpa := h);
    LinkAllAssigns(ws, hpas, i);
    AssignedIs(KeysOf(ws), hpas, i, ws[i].hpa);
    assert ws[i] in ws;
  }

  /** Of two workloads that one autoscaler names, the one loaded last gets it. */
  lemma SharedNameDependsOnOrder(ws: seq<WorkloadSpec>, hpas: seq<HPA>, ws': seq<WorkloadSpec>, hpas': seq<HPA>)
    requires Unlinked(ws, hpas) && Unlinked(ws', hpas') && ws != [] && ws' != [] && hpas != []
    requires Last(hpas) in hpas' && Last(ws) != Last(ws')
    requires Names(Last(ws).key, Last(hpas).targetRef) && Names(Last(ws').key, Last(hpas).targetRef)
    ensures multiset(LinkAll(ws, hpas)) != multiset(LinkAll(ws', hpas'))
  {
    var w, h := Last(ws), Last(hpas);
    LastIsLinked(ws, hpas);
    assert w in ws && w.(hpa := h) in multiset(LinkAll(ws, hpas));
    if w.(hpa := h) in LinkAll(ws', hpas') {
      OnlyLastIsLinked(ws', hpas', w, h);
    }
  }

  /** Of two autoscalers that name one workload, the one loaded last stays. */
  lemma SharedTargetDependsOnOrder(ws: seq<WorkloadSpec>, hpas: seq<HPA>, ws': seq<WorkloadSpec>, hpas': seq<HPA>)
    requires Unlinked(ws, hpas) && Unlinked(ws', hpas') && ws != [] && ws' != [] && hpas != [] && hpas' != []
    requires Last(hpas) in hpas' && Last(hpas) != Last(hpas') && Last(ws) == Last(ws')
    requires Names(Last(ws).key, Last(hpas).targetRef) && Names(Last(ws).key, Last(hpas').targetRef)
    ensures multiset(LinkAll(ws, hpas)) != multiset(LinkAll(ws', hpas'))
  {
    hide LinkAll;
    var w, h := Last(ws), Last(hpas);
    LastIsLinked(ws, hpas);
    assert w in ws && w.(hpa := h) in multiset(LinkAll(ws, hpas));
    LastResolves(ws', Last(hpas').targetRef);
    if w.(hpa := h) in LinkAll(ws', hpas') {
      OnlyLastIsLinked(ws', hpas', w, h);
    }
  }

  ghost predicate LinkedAlike(ws: seq<WorkloadSpec>, hpas: seq<HPA>) {
    forall ws', hpas' :: multiset(ws') == multiset(ws) && multiset(hpas') == multiset(hpas)
                     ==> multiset(LinkAll(ws', hpas')) == multiset(LinkAll(ws, hpas))
  }

  lemma PermutedUnlinked(ws: seq<WorkloadSpec>, ws': seq<WorkloadSpec>, hpas: seq<HPA>, hpas': seq<HPA>)
    requires multiset(ws) == multiset(ws') && multiset(hpas) == multiset(hpas') && Unlinked(ws, hpas)
    ensures Unlinked(ws', hpas')
    ensures forall h :: h in hpas ==> h in hpas'
  {
    assert forall h :: h in hpas' <==> h in multiset(hpas);
    assert forall w :: w in ws' <==> w in multiset(ws);
  }

  /** Linking loaded workloads gives the same linked workloads in every order of
      workloads and autoscalers exactly when no autoscaler names two different
      workloads and no two different autoscalers name one. */
  lemma LinkedAlikeIffUnambiguous(ws: seq<WorkloadSpec>, hpas: seq<HPA>)
    requires Unlinked(ws, hpas)
    ensures LinkedAlike(ws, hpas) <==> Unambiguous(ws, hpas)
  {
    if Unambiguous(ws, hpas) {
      forall ws', hpas' | multiset(ws') == multiset(ws) && multiset(hpas') == multiset(hpas)
        ensures multiset(LinkAll(ws', hpas')) == multiset(LinkAll(ws, hpas))
      {
        LinkedPermuted(ws, ws', hpas, hpas');
      }
    } else if exists h :: h in hpas && !NamesOne(h.targetRef, ws) {
      var h :| h in hpas && !NamesOne(h.targetRef, ws);
      var v, w :| v in ws && w in ws && Names(v.key, h.targetRef) && Names(w.key, h.targetRef) && v != w;
      var a := WithLast(ws, v);
      var b := WithLast(ws, w);
      var hs := WithLast(hpas, h);
      PermutedUnlinked(ws, a, hpas, hs);
      PermutedUnlinked(ws, b, hpas, hs);
      SharedNameDependsOnOrder(a, hs, b, hs);
    } else {
      var w :| w in ws && !NamedOnce(w, hpas);
      var g, h :| g in hpas && h in hpas && Names(w.key, g.targetRef) && Names(w.key, h.targetRef) && g != h;
      var a := WithLast(ws, w);
      var gs := WithLast(hpas, g);
      var hs := WithLast(hpas, h);
      PermutedUnlinked(ws, a, hpas, gs);
      PermutedUnlinked(ws, a, hpas, hs);
      SharedTargetDependsOnOrder(a, gs, a, hs);
    }
  }

  // ----- Distinct names -----

  function KindNames(ws: seq<WorkloadSpec>): seq<string> {
    Map(ws, (w: WorkloadSpec) => BuildKindName(w.key))
  }

  /** Where kind names are distinct no reference names two workloads. */
  lemma DistinctNamesOne(ws: seq<WorkloadSpec>, ref: string)
    requires Distinct(KindNames(ws))
    ensures NamesOne(ref, ws)
  {
    forall v, w | v in ws && w in ws && Names(v.key, ref) && Names(w.key, ref) ensures v == w {
      var i, k :| 0 <= i < |ws| && ws[i] == v && 0 <= k < |ws| && ws[k] == w;
      NamesDetermineKindName(v.key, w.key, ref);
      assert KindNames(ws)[i] == KindNames(ws)[k];
    }
  }
}
