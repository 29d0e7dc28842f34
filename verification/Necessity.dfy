/** Each assumption behind the queue's properties is needed: a run in which
    every item is taken by a worker of its own defeats the property without it. */
module Necessity {
  import opened Collections
  import opened Redis
  import opened WorkQueue
  import opened Leasing
  import opened Abandonment
  import opened Checkpoints

  /** Workers 0 .. n-1 start one after the other, and each takes one item. */
  function TakeAll(n: nat): seq<Event> {
    if n == 0 then [] else Turns(TakeAll(n - 1), n - 1, 3)
  }

  function JustTook<M>(i: Item): Worker<M> {
    Worker(if i != "" then SetLease(i) else Load(i), None)
  }

  /** The state after `TakeAll(n)`: worker w has the item w places from the tail. */
  ghost predicate Taken<M>(j: Job<M>, s: State<M>, n: nat)
    requires n <= |j.initial|
  {
    && s.db.main == j.initial[..|j.initial| - n]
    && s.db.processing == j.initial[|j.initial| - n..]
    && s.completed == [] && s.files == j.files
    && |s.leased| == n
    && (forall w: Session :: w in s.workers <==> w < n)
    && (forall w: nat :: w < n ==>
          && s.workers[w] == JustTook(j.initial[|j.initial| - 1 - w])
          && s.leased[w] == Entry(w, j.initial[|j.initial| - 1 - w]))
  }

  /** A new worker takes the last waiting item in four events. */
  lemma TakeOne<M>(j: Job<M>, events: seq<Event>, w: Session)
    requires w !in Run(j, events).workers && Run(j, events).db.main != []
    ensures var s := Run(j, events);
            Run(j, Turns(events, w, 3))
              == s.(db := RPopLPush(s.db).1, leased := s.leased + [Entry(w, Last(s.db.main))],
                    workers := s.workers[w := JustTook(Last(s.db.main))])
  {
    hide Run;
    RunAppend(j, events, Start(w));
    RunAppend(j, Turns(events, w, 0), Advance(w));
    RunAppend(j, Turns(events, w, 1), Advance(w));
    RunAppend(j, Turns(events, w, 2), Advance(w));
    var s, i := Run(j, events), Last(Run(j, events).db.main);
    assert s.workers[w := Worker(AnnounceMain, None)][w := JustTook(i)] == s.workers[w := JustTook(i)];
  }

  lemma OneMoreTaken<M>(j: Job<M>, s: State<M>, s': State<M>, n: nat)
    requires n < |j.initial| && Taken(j, s, n)
    requires s' == s.(db := RPopLPush(s.db).1, leased := s.leased + [Entry(n, Last(s.db.main))],
                      workers := s.workers[n := JustTook(Last(s.db.main))])
    ensures Taken(j, s', n + 1)
  {
    var k := |j.initial| - n - 1;
    assert [j.initial[k]] + j.initial[k + 1..] == j.initial[k..];
  }

  lemma {:induction false} EveryItemTaken<M>(j: Job<M>, n: nat)
    requires n <= |j.initial|
    ensures Taken(j, Run(j, TakeAll(n)), n)
  {
    if n > 0 {
      hide Step;
      EveryItemTaken(j, n - 1);
      TakeOne(j, TakeAll(n - 1), n - 1);
      OneMoreTaken(j, Run(j, TakeAll(n - 1)), Run(j, TakeAll(n)), n - 1);
    }
  }

  /** Whatever the queue, a worker can crash on its first item and abandon it. */
  lemma CrashAbandons<M>(j: Job<M>) returns (events: seq<Event>)
    requires j.initial != []
    ensures !NothingAbandoned(Run(j, events))
  {
    assert Run(j, []) == Initial(j);
    hide Run;
    TakeOne(j, [], 0);
    RunAppend(j, Turns([], 0, 3), Crash(0));
    events := Turns([], 0, 3) + [Crash(0)];
    var taken := JustTook<M>(Last(j.initial)).pc;
    assert taken.Holding() == Some(Last(j.initial)) && Crashed(taken).Holding() == taken.Holding();
    assert Abandons(Run(j, events), 0);
  }

  /** `n` further steps of worker `w`. */
  function Advances(events: seq<Event>, w: Session, n: nat): seq<Event> {
    if n == 0 then events else Advances(events, w, n - 1) + [Advance(w)]
  }

  /** A worker that has just taken its first item fits and saves a model of it,
      and touches nothing else the lists or the other workers see. */
  lemma FirstSave<M>(j: Job<M>, events: seq<Event>, w: Session, i: Item) returns (after: seq<Event>)
    requires w in Run(j, events).workers && Run(j, events).workers[w] == JustTook(i)
    ensures var s, s' := Run(j, events), Run(j, after);
            && s'.db.main == s.db.main && s'.db.processing == s.db.processing
            && s'.leased == s.leased && s'.completed == s.completed
            && s'.files == s.files[j.CheckpointPath(i) := j.fit(j.untrained, i)]
            && s'.workers == s.workers[w := Worker(Remove(i), Some(j.CheckpointPath(i)))]
  {
    hide Run;
    RunAppend(j, Advances(events, w, 0), Advance(w));
    RunAppend(j, Advances(events, w, 1), Advance(w));
    RunAppend(j, Advances(events, w, 2), Advance(w));
    after := Advances(events, w, if i != "" then 3 else 2);
  }

  // ----- empty() must read the main list first -----

  /** Were the processing list read first and the main list second, `empty()`
      could be true with the whole queue still in processing. */
  lemma ReversedReadsAreUnsound<M>(j: Job<M>) returns (between: seq<Event>)
    requires j.initial != []
    ensures |Run(j, []).db.processing| == 0 && |Run(j, between).db.main| == 0
    ensures Run(j, between).db.processing == j.initial && Run(j, between).completed == []
  {
    between := TakeAll(|j.initial|);
    EveryItemTaken(j, |j.initial|);
  }

  // ----- Items must be unique -----

  ghost predicate Conserves<M>(j: Job<M>, s: State<M>) {
    multiset(s.db.main) + multiset(s.db.processing) + multiset(Items(s.completed)) == multiset(j.initial)
  }

  lemma TwiceInSequence(s: seq<Item>, a: nat, b: nat)
    requires a < b < |s| && s[a] == s[b]
    ensures multiset(s)[s[a]] >= 2
  {
    assert s == s[..b] + [s[b]] + s[b + 1..];
    assert s[a] == s[..b][a];
    assert s[a] in multiset(s[..b]);
  }

  /** Two equal items: one complete() removes both, so that for a while one of
      them is nowhere, and the lists can be empty with a copy still in work. */
  lemma DuplicateIsLost<M>(j: Job<M>, a: nat, b: nat) returns (events: seq<Event>)
    requires a < b < |j.initial| && j.initial[a] == j.initial[b]
    ensures !Conserves(j, Run(j, events))
  {
    hide Run, Step;
    var n, i := |j.initial|, j.initial[b];
    var w := n - 1 - b;
    EveryItemTaken(j, n);
    var after := FirstSave(j, TakeAll(n), w, i);
    events := after + [Advance(w)];
    RunAppend(j, after, Advance(w));
    StepOnLists(j, Run(j, after), Advance(w));
    var s := Run(j, events);
    WithoutMultiset(j.initial, i);
    TwiceInSequence(j.initial, a, b);
    assert s.db.main == [] && s.db.processing == Without(j.initial, i) by {
      assert j.initial[0..] == j.initial;
    }
    assert Items(s.completed) == [i];
    assert (multiset(s.db.main) + multiset(s.db.processing) + multiset(Items(s.completed)))[i] == 1;
  }

  /** Items are conserved in every run exactly when the queued items are unique. */
  lemma ConservedIffItemsUnique<M>(j: Job<M>)
    ensures j.UniqueItems() <==> forall events :: Conserves(j, Run(j, events))
  {
    if j.UniqueItems() {
      forall events ensures Conserves(j, Run(j, events)) {
        RunKeepsAccount(j, events);
      }
    } else {
      var a, b :| 0 <= a < b < |j.initial| && j.initial[a] == j.initial[b];
      var events := DuplicateIsLost(j, a, b);
    }
  }

  /** Every item left in processing was just taken by some worker. */
  ghost predicate AllJustTaken<M>(s: State<M>) {
    forall i :: i in s.db.processing ==> exists u :: u in s.workers && s.workers[u] == JustTook(i)
  }

  lemma WithoutIsShorter(s: seq<Item>, value: Item)
    ensures |Without(s, value)| <= |s|
    ensures value in s ==> |Without(s, value)| < |s|
  {
  }

  /** A worker that has just taken `x` carries it through to its removal. */
  lemma FinishFirst<M>(j: Job<M>, events: seq<Event>, u: Session, x: Item) returns (after: seq<Event>)
    requires u in Run(j, events).workers && Run(j, events).workers[u] == JustTook(x)
    requires AllJustTaken(Run(j, events))
    ensures var s, s' := Run(j, events), Run(j, after);
            && s'.db.main == s.db.main && s'.db.processing == Without(s.db.processing, x)
            && s'.completed == s.completed + [Entry(u, x)] && AllJustTaken(s')
  {
    hide Run, Step;
    var s := Run(j, events);
    var saved := FirstSave(j, events, u, x);
    RunAppend(j, saved, Advance(u));
    StepOnLists(j, Run(j, saved), Advance(u));
    after := saved + [Advance(u)];
    var s' := Run(j, after);
    forall i | i in s'.db.processing ensures exists v :: v in s'.workers && s'.workers[v] == JustTook(i) {
      WithoutMembers(s.db.processing, x, i);
      var v :| v in s.workers && s.workers[v] == JustTook(i);
      StepOnWorkers(j, Run(j, saved), Advance(u), v);
    }
  }

  /** The workers finish what is in processing; item `i` is not part of it. */
  lemma {:induction false} FinishAll<M>(j: Job<M>, events: seq<Event>, i: Item) returns (after: seq<Event>)
    requires Run(j, events).db.main == [] && i !in Run(j, events).db.processing && AllJustTaken(Run(j, events))
    ensures var s, s' := Run(j, events), Run(j, after);
            && s'.db.main == [] && s'.db.processing == []
            && multiset(Items(s'.completed))[i] == multiset(Items(s.completed))[i]
    decreases |Run(j, events).db.processing|
  {
    hide Run;
    var s := Run(j, events);
    if s.db.processing == [] {
      after := events;
    } else {
      var x := s.db.processing[0];
      assert x in s.db.processing;
      var u :| u in s.workers && s.workers[u] == JustTook(x);
      var mid := FinishFirst(j, events, u, x);
      WithoutMembers(s.db.processing, x, i);
      WithoutIsShorter(s.db.processing, x);
      ItemsAppend(s.completed, Entry(u, x));
      after := FinishAll(j, mid, i);
    }
  }

  /** A new worker that finds both lists empty leaves at once. */
  lemma LeavesAtOnce<M>(j: Job<M>, events: seq<Event>) returns (after: seq<Event>)
    requires Run(j, events).db.main == [] && Run(j, events).db.processing == []
    ensures SomeoneExited(Run(j, after)) && Run(j, after).completed == Run(j, events).completed
  {
    hide Run;
    var w := FreshSession(Run(j, events).workers.Keys);
    RunAppend(j, events, Start(w));
    RunAppend(j, Turns(events, w, 0), Advance(w));
    RunAppend(j, Turns(events, w, 1), Advance(w));
    RunAppend(j, Turns(events, w, 2), Advance(w));
    RunAppend(j, Turns(events, w, 3), Advance(w));
    after := Turns(events, w, 4);
    assert Run(j, after).workers[w].pc.Exited?;
  }

  lemma TakenIsJustTaken<M>(j: Job<M>, s: State<M>)
    requires Taken(j, s, |j.initial|)
    ensures s.db.processing == j.initial && AllJustTaken(s)
  {
    hide JustTook;
    var n := |j.initial|;
    assert j.initial[0..] == j.initial;
    forall x | x in s.db.processing ensures exists u :: u in s.workers && s.workers[u] == JustTook(x) {
      var k :| 0 <= k < n && j.initial[k] == x;
      assert s.workers[n - 1 - k] == JustTook(x);
    }
  }

  /** After `TakeAll` the worker n-1-b has just taken the b-th item. */
  lemma TakenByAll<M>(j: Job<M>, b: nat)
    requires b < |j.initial|
    ensures var s, w := Run(j, TakeAll(|j.initial|)), |j.initial| - 1 - b;
            && s.db.main == [] && s.db.processing == j.initial && s.completed == [] && AllJustTaken(s)
            && w in s.workers && s.workers[w] == JustTook(j.initial[b])
  {
    hide Run, JustTook, TakeAll, AllJustTaken;
    EveryItemTaken(j, |j.initial|);
    TakenIsJustTaken(j, Run(j, TakeAll(|j.initial|)));
  }

  /** The first of the two copies completed, both are gone from processing. */
  lemma BothRemoved<M>(j: Job<M>, b: nat) returns (events: seq<Event>)
    requires b < |j.initial|
    ensures var s, i := Run(j, events), j.initial[b];
            && s.db.main == [] && i !in s.db.processing && AllJustTaken(s)
            && multiset(Items(s.completed))[i] == 1
  {
    hide Run, JustTook, AllJustTaken;
    TakenByAll(j, b);
    WithoutMembers(j.initial, j.initial[b], j.initial[b]);
    events := FinishFirst(j, TakeAll(|j.initial|), |j.initial| - 1 - b, j.initial[b]);
    assert Items(Run(j, events).completed) == [j.initial[b]];
  }

  /** Two equal items: a worker can leave its loop with one of them never completed. */
  lemma DuplicateEndsTooEarly<M>(j: Job<M>, a: nat, b: nat) returns (events: seq<Event>)
    requires a < b < |j.initial| && j.initial[a] == j.initial[b]
    ensures SomeoneExited(Run(j, events))
    ensures multiset(Items(Run(j, events).completed)) != multiset(j.initial)
  {
    hide Run, AllJustTaken, Items, SomeoneExited;
    var first := BothRemoved(j, b);
    var rest := FinishAll(j, first, j.initial[b]);
    events := LeavesAtOnce(j, rest);
    TwiceInSequence(j.initial, a, b);
  }

  ghost predicate DoneWhenExited<M>(j: Job<M>, s: State<M>) {
    SomeoneExited(s) ==> multiset(Items(s.completed)) == multiset(j.initial)
  }

  /** In every run a worker leaves its loop only when every queued item has been
      completed, exactly when the queued items are unique. */
  lemma ExitMeansDoneIffItemsUnique<M>(j: Job<M>)
    ensures j.UniqueItems() <==> forall events :: DoneWhenExited(j, Run(j, events))
  {
    hide Run;
    if j.UniqueItems() {
      forall events ensures DoneWhenExited(j, Run(j, events)) {
        if SomeoneExited(Run(j, events)) {
          ExitedIsDone(j, events);
        }
      }
    } else {
      var a, b :| 0 <= a < b < |j.initial| && j.initial[a] == j.initial[b];
      var events := DuplicateEndsTooEarly(j, a, b);
      assert !DoneWhenExited(j, Run(j, events));
    }
  }

  // ----- File stems must be distinct -----

  /** Fitting a new model on different datasets gives different models. */
  ghost predicate FitTellsItemsApart<M>(j: Job<M>) {
    forall a, b :: j.fit(j.untrained, a) == j.fit(j.untrained, b) ==> a == b
  }

  /** Two items with one stem: the second save overwrites the first worker's checkpoint. */
  lemma ClashOverwritesCheckpoint<M>(j: Job<M>, a: nat, b: nat) returns (events: seq<Event>)
    requires j.UniqueItems() && FitTellsItemsApart(j)
    requires a < b < |j.initial| && j.stem(j.initial[a]) == j.stem(j.initial[b])
    ensures !AllChained(j, Run(j, events))
  {
    hide Run, Step;
    var n := |j.initial|;
    var v, w := n - 1 - b, n - 1 - a;
    EveryItemTaken(j, n);
    var mid := FirstSave(j, TakeAll(n), v, j.initial[b]);
    events := FirstSave(j, mid, w, j.initial[a]);
    var s := Run(j, events);
    var s0 := Run(j, TakeAll(n));
    OwnOfTaken(s0.leased, v);
    assert Own(s.leased, v) == [j.initial[b]];
    assert Saved(s, v) == [j.initial[b]];
    assert j.Trained([j.initial[b]]) == j.fit(j.Trained([]), j.initial[b]);
    assert !Chained(j, s, v);
  }

  lemma {:induction false} OwnOfTaken(h: seq<Entry>, w: nat)
    requires forall k :: 0 <= k < |h| ==> h[k].session == k
    ensures Own(h, w) == if w < |h| then [h[w].item] else []
  {
    if h != [] {
      OwnOfTaken(DropLast(h), w);
    }
  }

  /** For unique items and a fit that tells them apart, every worker keeps its
      own chain in every run exactly when the file stems are distinct. */
  lemma OwnChainsIffStemsUnique<M>(j: Job<M>)
    requires j.UniqueItems() && FitTellsItemsApart(j)
    ensures j.UniqueStems() <==> forall events :: AllChained(j, Run(j, events))
  {
    if j.UniqueStems() {
      forall events ensures AllChained(j, Run(j, events)) {
        CheckpointsAreOwnChains(j, events);
      }
    } else {
      var a, b :| 0 <= a < b < |j.initial| && j.stem(j.initial[a]) == j.stem(j.initial[b]);
      var events := ClashOverwritesCheckpoint(j, a, b);
    }
  }
}
