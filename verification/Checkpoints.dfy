/** The models: each worker chains its own checkpoints. */
module Checkpoints {
  import opened Collections
  import opened Redis
  import opened WorkQueue
  import opened Leasing
  import opened Abandonment

  /** The items of the worker whose fitting has been saved. */
  function Saved<M>(s: State<M>, w: Session): seq<Item>
    requires w in s.workers
  {
    var own := Own(s.leased, w);
    if s.workers[w].pc.Unsaved() && own != [] then DropLast(own) else own
  }

  /** The checkpoint of a worker is the file of the last item it saved, and
      that file holds the model fitted on exactly the items it saved, in order. */
  ghost predicate Chained<M>(j: Job<M>, s: State<M>, w: Session)
    requires w in s.workers
  {
    var saved, checkpoint := Saved(s, w), s.workers[w].checkpoint;
    && (checkpoint.None? <==> saved == [])
    && (checkpoint.Some? ==>
          && checkpoint.value == j.CheckpointPath(Last(saved))
          && checkpoint.value in s.files
          && s.files[checkpoint.value] == j.Trained(saved))
    && (s.workers[w].pc.Save? ==> s.workers[w].pc.model == j.Trained(Own(s.leased, w)))
  }

  ghost predicate AllChained<M>(j: Job<M>, s: State<M>) {
    forall w :: w in s.workers ==> Chained(j, s, w)
  }

  lemma UniqueStemsUniqueItems<M>(j: Job<M>)
    requires j.UniqueStems()
    ensures j.UniqueItems()
  {
  }

  lemma SamePathSameStem<M>(j: Job<M>, a: Item, b: Item)
    ensures j.CheckpointPath(a) == j.CheckpointPath(b) <==> j.stem(a) == j.stem(b)
  {
    if j.CheckpointPath(a) == j.CheckpointPath(b) {
      SameSuffix(CHECKPOINT_PREFIX + j.stem(a), CHECKPOINT_PREFIX + j.stem(b), CHECKPOINT_SUFFIX);
      SamePrefix(CHECKPOINT_PREFIX, j.stem(a), j.stem(b));
    }
  }

  /** Items leased by different workers are checkpointed under different paths. */
  lemma PathsDoNotClash<M>(j: Job<M>, s: State<M>, v: Session, a: Item, w: Session, b: Item)
    requires j.UniqueStems() && Ordered(j, s) && v != w
    requires a in Own(s.leased, v) && b in Own(s.leased, w)
    ensures j.CheckpointPath(a) != j.CheckpointPath(b)
  {
    OwnRecorded(s.leased, v, a);
    OwnRecorded(s.leased, w, b);
    var k :| 0 <= k < |s.leased| && s.leased[k] == Entry(v, a);
    var l :| 0 <= l < |s.leased| && s.leased[l] == Entry(w, b);
    SamePathSameStem(j, a, b);
  }

  lemma UnsavedHolds<M>(pc: Pc<M>)
    ensures pc.Unsaved() ==> pc.Holding().Some?
  {
  }

  /** Worker `w` is about to load its checkpoint, or to save a model. */
  predicate UsesFiles<M>(s: State<M>, e: Event) {
    e.Advance? && e.w in s.workers && (s.workers[e.w].pc.Load? || s.workers[e.w].pc.Save?)
  }

  lemma PopStaysChained<M>(j: Job<M>, s: State<M>, e: Event)
    requires Pops(s, e) && Chained(j, s, e.w)
    ensures e.w in Step(j, s, e).workers && Chained(j, Step(j, s, e), e.w)
  {
  }

  lemma FileUseStaysChained<M>(j: Job<M>, s: State<M>, e: Event)
    requires UsesFiles(s, e) && Held(s, e.w) && Chained(j, s, e.w)
    ensures e.w in Step(j, s, e).workers && Chained(j, Step(j, s, e), e.w)
  {
  }

  lemma PlainMoveStaysChained<M>(j: Job<M>, s: State<M>, e: Event)
    requires e.Start? || e.Advance? || e.Crash?
    requires !Pops(s, e) && !UsesFiles(s, e)
    requires e.w in s.workers && Chained(j, s, e.w)
    ensures e.w in Step(j, s, e).workers && Chained(j, Step(j, s, e), e.w)
  {
    StepOnLists(j, s, e);
    var s' := Step(j, s, e);
    assert s'.files == s.files && s'.workers[e.w].checkpoint == s.workers[e.w].checkpoint;
    assert s'.workers[e.w].pc.Unsaved() == s.workers[e.w].pc.Unsaved();
  }

  lemma MoverStaysChained<M>(j: Job<M>, s: State<M>, e: Event)
    requires e.Start? || e.Advance? || e.Crash?
    requires e.w in s.workers ==> Held(s, e.w) && Chained(j, s, e.w)
    requires e.w !in s.workers ==> Own(s.leased, e.w) == []
    requires e.w in Step(j, s, e).workers
    ensures Chained(j, Step(j, s, e), e.w)
  {
    if e.w in s.workers {
      if Pops(s, e) {
        PopStaysChained(j, s, e);
      } else if UsesFiles(s, e) {
        FileUseStaysChained(j, s, e);
      } else {
        PlainMoveStaysChained(j, s, e);
      }
    }
  }

  /** Only a save touches a file, and only the one of the saved item. */
  lemma StepOnFiles<M>(j: Job<M>, s: State<M>, e: Event, path: Path)
    requires path in s.files
    requires !(e.Advance? && e.w in s.workers && s.workers[e.w].pc.Save?
               && j.CheckpointPath(s.workers[e.w].pc.item) == path)
    ensures path in Step(j, s, e).files && Step(j, s, e).files[path] == s.files[path]
  {
  }

  lemma OthersStayChained<M>(j: Job<M>, s: State<M>, e: Event, w: Session)
    requires j.UniqueStems() && Ordered(j, s) && AllChained(j, s)
    requires forall v :: v in s.workers ==> Held(s, v)
    requires w in s.workers && !Moves(e, w)
    ensures w in Step(j, s, e).workers && Chained(j, Step(j, s, e), w)
  {
    hide Step;
    StepOnLists(j, s, e);
    StepOnWorkers(j, s, e, w);
    assert Chained(j, s, w);
    if Pops(s, e) {
      OwnAppend(s.leased, Entry(e.w, Last(s.db.main)), w);
    } else if e.Advance? && e.w in s.workers && s.workers[e.w].pc.Save? && Saved(s, w) != [] {
      assert Held(s, e.w);
      assert Last(Saved(s, w)) in Own(s.leased, w);
      PathsDoNotClash(j, s, w, Last(Saved(s, w)), e.w, s.workers[e.w].pc.item);
    }
    if s.workers[w].checkpoint.Some? {
      StepOnFiles(j, s, e, s.workers[w].checkpoint.value);
    }
  }

  ghost predicate SessionsKnown<M>(s: State<M>) {
    forall e :: e in s.leased ==> e.session in s.workers
  }

  lemma StepKeepsSessions<M>(j: Job<M>, s: State<M>, e: Event)
    requires SessionsKnown(s)
    ensures SessionsKnown(Step(j, s, e))
  {
  }

  lemma {:induction false} RunKeepsSessions<M>(j: Job<M>, events: seq<Event>)
    ensures SessionsKnown(Run(j, events))
  {
    if events != [] {
      RunKeepsSessions(j, DropLast(events));
      StepKeepsSessions(j, Run(j, DropLast(events)), Last(events));
    }
  }

  lemma StepKeepsChains<M>(j: Job<M>, s: State<M>, e: Event)
    requires j.UniqueStems() && Ordered(j, s) && AllChained(j, s) && SessionsKnown(s)
    requires forall v :: v in s.workers ==> Held(s, v)
    ensures AllChained(j, Step(j, s, e))
  {
    forall w | w in Step(j, s, e).workers ensures Chained(j, Step(j, s, e), w) {
      if Moves(e, w) {
        if w !in s.workers && Own(s.leased, w) != [] {
          OwnRecorded(s.leased, w, Own(s.leased, w)[0]);
        }
        MoverStaysChained(j, s, e);
      } else {
        StepOnWorkers(j, s, e, w);
        OthersStayChained(j, s, e, w);
      }
    }
  }

  /** Given distinct file stems: in every run, for every worker, the checkpoint
      it would load is the one it last saved, and it holds the model fitted on
      the worker's own leases, in the order of the leases. */
  lemma {:induction false} CheckpointsAreOwnChains<M>(j: Job<M>, events: seq<Event>)
    requires j.UniqueStems()
    ensures AllChained(j, Run(j, events))
  {
    if events != [] {
      CheckpointsAreOwnChains(j, DropLast(events));
      UniqueStemsUniqueItems(j);
      RunKeepsAccount(j, DropLast(events));
      RunKeepsSessions(j, DropLast(events));
      StepKeepsChains(j, Run(j, DropLast(events)), Last(events));
    }
  }

  lemma {:induction false} OwnMultiplicity(h: seq<Entry>, w: Session, i: Item)
    ensures multiset(Own(h, w))[i] <= multiset(Items(h))[i]
  {
    if h != [] {
      SplitLast(h);
      OwnMultiplicity(DropLast(h), w, i);
      ItemsAppend(DropLast(h), Last(h));
    }
  }

  /** Item `i` was fitted by worker `w`, once, and by no other. */
  ghost predicate FittedOnceBy<M>(s: State<M>, i: Item, w: Session) {
    && w in s.workers && multiset(Own(s.leased, w))[i] == 1
    && forall v :: v != w ==> i !in Own(s.leased, v)
  }

  lemma FittedOnce<M>(j: Job<M>, s: State<M>, i: Item)
    requires j.UniqueItems() && Ordered(j, s) && SessionsKnown(s) && s.db.main == [] && i in j.initial
    ensures exists w :: FittedOnceBy(s, i, w)
  {
    var n := |j.initial|;
    var k :| 0 <= k < n && j.initial[k] == i;
    var e := s.leased[n - 1 - k];
    assert e in s.leased && e == Entry(e.session, i);
    OwnRecorded(s.leased, e.session, i);
    OwnMultiplicity(s.leased, e.session, i);
    DistinctMultiplicity(Items(s.leased), i);
    forall v | i in Own(s.leased, v) ensures v == e.session {
      OwnRecorded(s.leased, v, i);
      OneSessionPerItem(j, s, v, e.session, i);
    }
    assert i in multiset(Own(s.leased, e.session));
    assert FittedOnceBy(s, i, e.session);
  }

  lemma ExitedIsDone<M>(j: Job<M>, events: seq<Event>)
    requires j.UniqueItems() && SomeoneExited(Run(j, events))
    ensures Ordered(j, Run(j, events)) && Accounted(j, Run(j, events)) && SessionsKnown(Run(j, events))
    ensures Run(j, events).db.main == [] && Run(j, events).db.processing == []
  {
    RunKeepsOrder(j, events);
    RunKeepsAccount(j, events);
    RunKeepsSessions(j, events);
    var x :| x in Run(j, events).workers && Run(j, events).workers[x].pc.Exited?;
    assert QuietWorker(Run(j, events), Run(j, events).workers[x].pc);
  }

  /** Once a worker has left its loop, the chains partition the initial queue. */
  lemma ChainsPartitionTheQueue<M>(j: Job<M>, events: seq<Event>)
    requires j.UniqueItems() && SomeoneExited(Run(j, events))
    ensures var s := Run(j, events);
            && (forall i :: i in j.initial ==> exists w :: FittedOnceBy(s, i, w))
            && (forall w, i :: i in Own(s.leased, w) ==> i in j.initial)
  {
    var s := Run(j, events);
    ExitedIsDone(j, events);
    forall i | i in j.initial ensures exists w :: FittedOnceBy(s, i, w) {
      FittedOnce(j, s, i);
    }
    forall w, i | i in Own(s.leased, w) ensures i in j.initial {
      OwnRecorded(s.leased, w, i);
      assert Entry(w, i).item == i;
    }
  }

  /** Once a worker has left its loop, every worker's checkpoint holds its whole chain. */
  lemma FinalCheckpointsAreWholeChains<M>(j: Job<M>, events: seq<Event>, w: Session)
    requires j.UniqueStems() && SomeoneExited(Run(j, events))
    requires w in Run(j, events).workers
    ensures var s := Run(j, events);
            var own, checkpoint := Own(s.leased, w), s.workers[w].checkpoint;
            if own == [] then checkpoint.None?
            else checkpoint.Some? && checkpoint.value in s.files && s.files[checkpoint.value] == j.Trained(own)
  {
    var s := Run(j, events);
    CheckpointsAreOwnChains(j, events);
    UniqueStemsUniqueItems(j);
    ExitedIsDone(j, events);
    assert Held(s, w) && Chained(j, s, w);
    UnsavedHolds(s.workers[w].pc);
  }
}
