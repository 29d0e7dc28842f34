/** Who holds which item: exclusive leases, conservation of items, lease keys,
    the meaning of `empty()`, and what a crash leaves behind. */
module Leasing {
  import opened Collections
  import opened Redis
  import opened WorkQueue

  // ----- At most one lease per item -----

  lemma OneSessionPerItem<M>(j: Job<M>, s: State<M>, v: Session, w: Session, i: Item)
    requires j.UniqueItems() && Ordered(j, s)
    requires Entry(v, i) in s.leased && Entry(w, i) in s.leased
    ensures v == w
  {
  }

  lemma LeasedIsNotWaiting<M>(j: Job<M>, s: State<M>, e: Entry)
    requires j.UniqueItems() && Ordered(j, s) && e in s.leased
    ensures e.item !in s.db.main
  {
  }

  /** A worker's current item is the last one it leased, and it lies in the
      processing list until the worker removes it. */
  ghost predicate Held<M>(s: State<M>, w: Session)
    requires w in s.workers
  {
    var pc, own := s.workers[w].pc, Own(s.leased, w);
    && (pc.Current().Some? ==> own != [] && Last(own) == pc.Current().value)
    && (pc.Holding().Some? ==> pc.Holding().value in s.db.processing)
  }

  ghost predicate Holder<M>(s: State<M>, w: Session, i: Item) {
    w in s.workers && s.workers[w].pc.Holding() == Some(i)
  }

  /** Every worker holds what it says, every item in processing has a holder,
      and nothing is lost or duplicated. */
  ghost predicate Accounted<M>(j: Job<M>, s: State<M>) {
    && (forall w :: w in s.workers ==> Held(s, w))
    && (forall i :: i in s.db.processing ==> exists w :: Holder(s, w, i))
    && (forall e :: e in s.completed ==> e in s.leased)
    && multiset(s.db.main) + multiset(s.db.processing) + multiset(Items(s.completed)) == multiset(j.initial)
  }

  lemma HeldByOne<M>(j: Job<M>, s: State<M>, v: Session, w: Session)
    requires j.UniqueItems() && Ordered(j, s)
    requires v in s.workers && w in s.workers && Held(s, v) && Held(s, w)
    requires s.workers[v].pc.Current().Some? && s.workers[v].pc.Current() == s.workers[w].pc.Current()
    ensures v == w
  {
    var i := s.workers[v].pc.Current().value;
    OwnRecorded(s.leased, v, i);
    OwnRecorded(s.leased, w, i);
    OneSessionPerItem(j, s, v, w, i);
  }

  lemma HoldingIsCurrent<M>(pc: Pc<M>)
    ensures pc.Holding().Some? ==> pc.Current() == pc.Holding()
  {
  }

  lemma WithoutMembers(s: seq<Item>, value: Item, i: Item)
    ensures i in Without(s, value) <==> i in s && i != value
  {
  }

  lemma MoverKeepsHeld<M>(j: Job<M>, s: State<M>, e: Event)
    requires e.Start? || e.Advance? || e.Crash?
    requires e.w in s.workers ==> Held(s, e.w)
    requires e.w in Step(j, s, e).workers
    ensures Held(Step(j, s, e), e.w)
  {
    StepOnLists(j, s, e);
    if Pops(s, e) {
      OwnAppend(s.leased, Entry(e.w, Last(s.db.main)), e.w);
    } else if e.w in s.workers {
      HoldingIsCurrent(s.workers[e.w].pc);
    }
  }

  lemma OthersStayHeld<M>(j: Job<M>, s: State<M>, e: Event, w: Session)
    requires j.UniqueItems() && Ordered(j, s) && Accounted(j, s)
    requires w in s.workers && !Moves(e, w)
    ensures w in Step(j, s, e).workers && Held(Step(j, s, e), w)
  {
    StepOnLists(j, s, e);
    StepOnWorkers(j, s, e, w);
    assert Held(s, w);
    if Pops(s, e) {
      OwnAppend(s.leased, Entry(e.w, Last(s.db.main)), w);
    } else if Removes(s, e) && s.workers[w].pc.Holding().Some? {
      assert Held(s, e.w);
      HoldingIsCurrent(s.workers[w].pc);
      if s.workers[w].pc.Holding() == s.workers[e.w].pc.Holding() {
        HeldByOne(j, s, w, e.w);
      }
      WithoutMembers(s.db.processing, s.workers[e.w].pc.item, s.workers[w].pc.Holding().value);
    }
  }

  lemma StepKeepsHeld<M>(j: Job<M>, s: State<M>, e: Event, w: Session)
    requires j.UniqueItems() && Ordered(j, s) && Accounted(j, s)
    requires w in Step(j, s, e).workers
    ensures Held(Step(j, s, e), w)
  {
    if Moves(e, w) {
      assert w in s.workers ==> Held(s, w);
      MoverKeepsHeld(j, s, e);
    } else {
      StepOnWorkers(j, s, e, w);
      OthersStayHeld(j, s, e, w);
    }
  }

  lemma HolderStays<M>(j: Job<M>, s: State<M>, e: Event, w: Session, i: Item)
    requires Holder(s, w, i) && !(Removes(s, e) && e.w == w)
    ensures Holder(Step(j, s, e), w, i)
  {
    if !Moves(e, w) {
      StepOnWorkers(j, s, e, w);
    }
  }

  lemma StepKeepsHolders<M>(j: Job<M>, s: State<M>, e: Event, i: Item)
    requires Accounted(j, s)
    requires i in Step(j, s, e).db.processing
    ensures exists w :: Holder(Step(j, s, e), w, i)
  {
    hide Step;
    StepOnLists(j, s, e);
    if Removes(s, e) {
      WithoutMembers(s.db.processing, s.workers[e.w].pc.item, i);
    }
    if i in s.db.processing {
      var w :| Holder(s, w, i);
      HolderStays(j, s, e, w, i);
    } else {
      PopMakesHolder(j, s, e);
    }
  }

  lemma PopMakesHolder<M>(j: Job<M>, s: State<M>, e: Event)
    requires Pops(s, e)
    ensures Holder(Step(j, s, e), e.w, Last(s.db.main))
  {
  }

  /** Before a removal the item is in the processing list exactly once. */
  lemma RemovedOnce<M>(j: Job<M>, s: State<M>, i: Item)
    requires j.UniqueItems() && Accounted(j, s) && i in s.db.processing
    ensures multiset(s.db.processing)[i] == 1
    ensures multiset(Without(s.db.processing, i)) == multiset(s.db.processing) - multiset{i}
  {
    DistinctMultiplicity(j.initial, i);
    assert multiset(j.initial)[i]
        == multiset(s.db.main)[i] + multiset(s.db.processing)[i] + multiset(Items(s.completed))[i];
    assert i in multiset(s.db.processing);
    WithoutMultiset(s.db.processing, i);
  }

  lemma ItemsAppend(h: seq<Entry>, e: Entry)
    ensures Items(h + [e]) == Items(h) + [e.item]
  {
  }

  lemma StepConserves<M>(j: Job<M>, s: State<M>, e: Event)
    requires j.UniqueItems() && Accounted(j, s)
    ensures var s' := Step(j, s, e);
            multiset(s'.db.main) + multiset(s'.db.processing) + multiset(Items(s'.completed)) == multiset(j.initial)
  {
    StepOnLists(j, s, e);
    if Pops(s, e) {
      SplitLast(s.db.main);
    } else if Removes(s, e) {
      assert Held(s, e.w);
      RemovedOnce(j, s, s.workers[e.w].pc.item);
      ItemsAppend(s.completed, Entry(e.w, s.workers[e.w].pc.item));
    }
  }

  lemma StepKeepsAccount<M>(j: Job<M>, s: State<M>, e: Event)
    requires j.UniqueItems() && Ordered(j, s) && Accounted(j, s)
    ensures Accounted(j, Step(j, s, e))
  {
    var s' := Step(j, s, e);
    forall w | w in s'.workers ensures Held(s', w) {
      StepKeepsHeld(j, s, e, w);
    }
    forall i | i in s'.db.processing ensures exists w :: Holder(s', w, i) {
      StepKeepsHolders(j, s, e, i);
    }
    StepConserves(j, s, e);
    StepOnLists(j, s, e);
    if Removes(s, e) {
      assert Held(s, e.w);
      OwnRecorded(s.leased, e.w, s.workers[e.w].pc.item);
    }
  }

  lemma {:induction false} RunKeepsAccount<M>(j: Job<M>, events: seq<Event>)
    requires j.UniqueItems()
    ensures Ordered(j, Run(j, events)) && Accounted(j, Run(j, events))
  {
    RunKeepsOrder(j, events);
    if events != [] {
      RunKeepsAccount(j, DropLast(events));
      StepKeepsAccount(j, Run(j, DropLast(events)), Last(events));
    }
  }

  /** In every run no item is leased twice or held by two workers, every removed
      item was leased by the worker that removed it, and the items waiting, in
      processing and completed are together the initial ones. */
  lemma ItemsAreConserved<M>(j: Job<M>, events: seq<Event>)
    requires j.UniqueItems()
    ensures var s := Run(j, events);
            && multiset(s.db.main) + multiset(s.db.processing) + multiset(Items(s.completed)) == multiset(j.initial)
            && Distinct(Items(s.leased))
            && (forall e :: e in s.completed ==> e in s.leased)
            && (forall v, w, i :: Holder(s, v, i) && Holder(s, w, i) ==> v == w)
  {
    hide Run;
    var s := Run(j, events);
    RunKeepsAccount(j, events);
    forall v, w, i | Holder(s, v, i) && Holder(s, w, i) ensures v == w {
      HoldingIsCurrent(s.workers[v].pc);
      HoldingIsCurrent(s.workers[w].pc);
      HeldByOne(j, s, v, w);
    }
  }

  // ----- empty() and leaving the loop -----

  lemma {:induction false} EmptyStaysEmpty<M>(j: Job<M>, before: seq<Event>, after: seq<Event>)
    requires Run(j, before).db.main == []
    ensures Run(j, before + after).db.main == []
    ensures Run(j, before).db.processing == [] ==> Run(j, before + after).db.processing == []
  {
    if after == [] {
      assert before + after == before;
    } else {
      EmptyStaysEmpty(j, before, DropLast(after));
      assert before + after == before + DropLast(after) + [Last(after)];
      RunAppend(j, before + DropLast(after), Last(after));
      StepOnLists(j, Run(j, before + DropLast(after)), Last(after));
    }
  }

  /** If LLEN main answers 0, and at any later time LLEN processing answers 0,
      then from that second read on both lists are empty for ever and every
      initial item has been completed. */
  lemma EmptyIsNeverPremature<M>(j: Job<M>, first: seq<Event>, between: seq<Event>, after: seq<Event>)
    requires |Run(j, first).db.main| == 0
    requires |Run(j, first + between).db.processing| == 0
    ensures var s := Run(j, first + between + after);
            && s.db.main == [] && s.db.processing == []
            && (j.UniqueItems() ==> multiset(Items(s.completed)) == multiset(j.initial))
  {
    EmptyStaysEmpty(j, first, between);
    EmptyStaysEmpty(j, first + between, after);
    if j.UniqueItems() {
      RunKeepsAccount(j, first + between + after);
    }
  }

  /** A worker leaves its loop only when all work is done, and it stays done. */
  lemma ExitIsNeverPremature<M>(j: Job<M>, events: seq<Event>, after: seq<Event>, w: Session)
    requires w in Run(j, events).workers && Run(j, events).workers[w].pc.Exited?
    ensures var s := Run(j, events + after);
            && s.db.main == [] && s.db.processing == []
            && (j.UniqueItems() ==> multiset(Items(s.completed)) == multiset(j.initial))
  {
    RunKeepsOrder(j, events);
    assert QuietWorker(Run(j, events), Run(j, events).workers[w].pc);
    assert events + [] == events;
    EmptyIsNeverPremature(j, events, [], after);
  }

  // ----- Lease keys -----

  /** The key was set for an item that its session leased. */
  ghost predicate LeaseRecorded<M>(j: Job<M>, s: State<M>, key: string)
    requires key in s.db.leases
  {
    exists e :: e in s.leased && j.LeaseKey(e.item) == key && e.session == s.db.leases[key].session
  }

  ghost predicate LeasesRecorded<M>(j: Job<M>, s: State<M>) {
    forall key :: key in s.db.leases ==> LeaseRecorded(j, s, key)
  }

  /** An event sets no key but the one of the item its worker has just leased. */
  lemma StepOnLeases<M>(j: Job<M>, s: State<M>, e: Event, key: string)
    requires key in Step(j, s, e).db.leases
    ensures var lease := Step(j, s, e).db.leases[key];
            || (key in s.db.leases && lease == s.db.leases[key])
            || (&& e.Advance? && e.w in s.workers && s.workers[e.w].pc.SetLease?
                && key == j.LeaseKey(s.workers[e.w].pc.item) && lease == Lease(e.w, s.db.clock + LEASE_SECS))
    ensures s.db.clock <= Step(j, s, e).db.clock
  {
  }

  lemma StepKeepsLeasesRecorded<M>(j: Job<M>, s: State<M>, e: Event)
    requires LeasesRecorded(j, s) && forall w :: w in s.workers ==> Held(s, w)
    ensures LeasesRecorded(j, Step(j, s, e))
  {
    var s' := Step(j, s, e);
    StepOnLists(j, s, e);
    forall key | key in s'.db.leases ensures LeaseRecorded(j, s', key) {
      StepOnLeases(j, s, e, key);
      if key in s.db.leases && s'.db.leases[key] == s.db.leases[key] {
        assert LeaseRecorded(j, s, key);
      } else {
        assert Held(s, e.w);
        OwnRecorded(s.leased, e.w, s.workers[e.w].pc.item);
        assert Entry(e.w, s.workers[e.w].pc.item) in s'.leased;
      }
    }
  }

  lemma {:induction false} RunKeepsLeasesRecorded<M>(j: Job<M>, events: seq<Event>)
    requires j.UniqueItems()
    ensures LeasesRecorded(j, Run(j, events))
  {
    if events != [] {
      RunKeepsLeasesRecorded(j, DropLast(events));
      RunKeepsAccount(j, DropLast(events));
      StepKeepsLeasesRecorded(j, Run(j, DropLast(events)), Last(events));
    }
  }

  /** A present lease key names an item that its session leased and that is no longer waiting. */
  lemma LeaseKeysNameTheirHolders<M>(j: Job<M>, events: seq<Event>, key: string)
    requires j.UniqueItems() && key in Run(j, events).db.leases
    ensures var s := Run(j, events);
            exists e :: e in s.leased && j.LeaseKey(e.item) == key
                     && e.session == s.db.leases[key].session && e.item !in s.db.main
  {
    hide Run;
    var s := Run(j, events);
    RunKeepsLeasesRecorded(j, events);
    RunKeepsAccount(j, events);
    assert LeaseRecorded(j, s, key);
    var e :| e in s.leased && j.LeaseKey(e.item) == key && e.session == s.db.leases[key].session;
    LeasedIsNotWaiting(j, s, e);
  }

  lemma SameKeySameLease<M>(j: Job<M>, s: State<M>, d: Entry, e: Entry)
    requires j.UniqueItems() && j.InjectiveHash() && Ordered(j, s)
    requires d in s.leased && e in s.leased && j.LeaseKey(d.item) == j.LeaseKey(e.item)
    ensures d == e
  {
    SamePrefix(LEASE_PREFIX, j.hash(d.item), j.hash(e.item));
    OneSessionPerItem(j, s, d.session, e.session, e.item);
  }

  /** The DEL in complete() never removes another session's lease. */
  lemma DeleteFindsOwnLease<M>(j: Job<M>, events: seq<Event>, w: Session)
    requires j.UniqueItems() && j.InjectiveHash()
    requires w in Run(j, events).workers && Run(j, events).workers[w].pc.DeleteLease?
    ensures var s := Run(j, events);
            var key := j.LeaseKey(s.workers[w].pc.item);
            key in s.db.leases ==> s.db.leases[key].session == w
  {
    hide Run;
    var s := Run(j, events);
    var i := s.workers[w].pc.item;
    if j.LeaseKey(i) in s.db.leases {
      RunKeepsLeasesRecorded(j, events);
      RunKeepsAccount(j, events);
      assert LeaseRecorded(j, s, j.LeaseKey(i));
      var e :| e in s.leased && j.LeaseKey(e.item) == j.LeaseKey(i) && e.session == s.db.leases[j.LeaseKey(i)].session;
      assert Held(s, w);
      OwnRecorded(s.leased, w, i);
      SameKeySameLease(j, s, e, Entry(w, i));
    }
  }

  ghost predicate LeasesInTime<M>(s: State<M>) {
    forall key :: key in s.db.leases ==> s.db.leases[key].expires <= s.db.clock + LEASE_SECS
  }

  lemma StepKeepsLeasesInTime<M>(j: Job<M>, s: State<M>, e: Event)
    requires LeasesInTime(s)
    ensures LeasesInTime(Step(j, s, e))
  {
  }

  /** No lease lasts longer than the lease time from now. */
  lemma {:induction false} LeasesExpireInTime<M>(j: Job<M>, events: seq<Event>)
    ensures LeasesInTime(Run(j, events))
  {
    if events != [] {
      LeasesExpireInTime(j, DropLast(events));
      StepKeepsLeasesInTime(j, Run(j, DropLast(events)), Last(events));
    }
  }

  function Ticks(events: seq<Event>): nat {
    if events == [] then 0 else Ticks(DropLast(events)) + if Last(events).Tick? then 1 else 0
  }

  /** Setting or deleting this lease key is the worker's next command. */
  predicate AboutToTouch<M>(j: Job<M>, s: State<M>, w: Session, key: string) {
    && w in s.workers && (s.workers[w].pc.SetLease? || s.workers[w].pc.DeleteLease?)
    && j.LeaseKey(s.workers[w].pc.item) == key
  }

  /** An event that does not touch a lease key leaves it until its time has come. */
  lemma UntouchedLease<M>(j: Job<M>, s: State<M>, e: Event, key: string)
    requires !(e.Advance? && AboutToTouch(j, s, e.w, key))
    ensures var s' := Step(j, s, e);
            && s'.db.clock == s.db.clock + (if e.Tick? then 1 else 0)
            && (key in s'.db.leases ==> key in s.db.leases && s'.db.leases[key] == s.db.leases[key])
            && (key in s.db.leases && key !in s'.db.leases ==> s.db.leases[key].expires <= s.db.clock)
  {
  }

  /** A worker does not come back to an item. */
  lemma CurrentSince<M>(j: Job<M>, s: State<M>, e: Event, w: Session, i: Item)
    requires j.UniqueItems() && Ordered(j, s) && Entry(w, i) in s.leased
    requires w in s.workers && w in Step(j, s, e).workers && Step(j, s, e).workers[w].pc.Current() == Some(i)
    ensures s.workers[w].pc.Current() == Some(i)
    ensures Step(j, s, e).workers[w].pc.SetLease? ==> s.workers[w].pc == Step(j, s, e).workers[w].pc
    ensures Entry(w, i) in Step(j, s, e).leased
  {
    StepOnLists(j, s, e);
    if !Moves(e, w) {
      StepOnWorkers(j, s, e, w);
    } else if Pops(s, e) && Last(s.db.main) == i {
      LeasedIsNotWaiting(j, s, Entry(w, i));
    }
  }

  /** While a worker is at an item no other worker touches its lease key. */
  lemma OnlyHolderTouches<M>(j: Job<M>, s: State<M>, w: Session, i: Item, v: Session)
    requires j.UniqueItems() && j.InjectiveHash() && Ordered(j, s) && Accounted(j, s)
    requires w in s.workers && s.workers[w].pc.Current() == Some(i) && AboutToTouch(j, s, v, j.LeaseKey(i))
    ensures v == w
  {
    assert Held(s, v) && Held(s, w);
    SamePrefix(LEASE_PREFIX, j.hash(s.workers[v].pc.item), j.hash(i));
    HeldByOne(j, s, v, w);
  }

  /** Worker `w` has leased `i` at time `since` and is still at it. */
  ghost predicate LeaseRuns<M>(j: Job<M>, s: State<M>, w: Session, i: Item, since: nat) {
    && w in s.workers && !s.workers[w].pc.SetLease? && Entry(w, i) in s.leased && since <= s.db.clock
    && if j.LeaseKey(i) in s.db.leases then s.db.leases[j.LeaseKey(i)] == Lease(w, since + LEASE_SECS)
       else since + LEASE_SECS <= s.db.clock
  }

  lemma StepKeepsLease<M>(j: Job<M>, s: State<M>, e: Event, w: Session, i: Item, since: nat)
    requires j.UniqueItems() && j.InjectiveHash() && Ordered(j, s) && Accounted(j, s)
    requires LeaseRuns(j, s, w, i, since) && s.workers[w].pc.Current() == Some(i)
    requires w in Step(j, s, e).workers && Step(j, s, e).workers[w].pc.Current() == Some(i)
    ensures LeaseRuns(j, Step(j, s, e), w, i, since)
    ensures Step(j, s, e).db.clock == s.db.clock + (if e.Tick? then 1 else 0)
  {
    hide Ordered, Accounted;
    CurrentSince(j, s, e, w, i);
    if e.Advance? && AboutToTouch(j, s, e.w, j.LeaseKey(i)) {
      OnlyHolderTouches(j, s, w, i, e.w);
    }
    UntouchedLease(j, s, e, j.LeaseKey(i));
  }

  lemma {:induction false} HistoryGrows<M>(j: Job<M>, events: seq<Event>, more: seq<Event>, w: Session)
    requires w in Run(j, events).workers
    ensures w in Run(j, events + more).workers
    ensures forall e :: e in Run(j, events).leased ==> e in Run(j, events + more).leased
  {
    hide Run;
    if more == [] {
      assert events + more == events;
    } else {
      HistoryGrows(j, events, DropLast(more), w);
      assert events + more == events + DropLast(more) + [Last(more)];
      RunAppend(j, events + DropLast(more), Last(more));
      StepOnLists(j, Run(j, events + DropLast(more)), Last(more));
    }
  }

  lemma CurrentRecorded<M>(j: Job<M>, events: seq<Event>, w: Session)
    requires j.UniqueItems() && w in Run(j, events).workers && Run(j, events).workers[w].pc.Current().Some?
    ensures Entry(w, Run(j, events).workers[w].pc.Current().value) in Run(j, events).leased
  {
    hide Run;
    var s := Run(j, events);
    RunKeepsAccount(j, events);
    assert Held(s, w);
    OwnRecorded(s.leased, w, s.workers[w].pc.Current().value);
  }

  lemma LeaseNoted<M>(j: Job<M>, events: seq<Event>, w: Session)
    requires j.UniqueItems() && w in Run(j, events).workers && Run(j, events).workers[w].pc.SetLease?
    ensures var s, s' := Run(j, events), Run(j, events + [Advance(w)]);
            LeaseRuns(j, s', w, s.workers[w].pc.item, s.db.clock) && s'.db.clock == s.db.clock
  {
    hide Run;
    RunAppend(j, events, Advance(w));
    CurrentRecorded(j, events, w);
  }

  /** Once a worker has noted its lease, the lease is seen for exactly the lease
      time, as long as the worker, alive or crashed, has not completed the item. */
  lemma {:induction false} LeaseIsSeenForItsTime<M>(j: Job<M>, events: seq<Event>, w: Session, after: seq<Event>)
    requires j.UniqueItems() && j.InjectiveHash()
    requires w in Run(j, events).workers && Run(j, events).workers[w].pc.SetLease?
    requires var s := Run(j, events + [Advance(w)] + after);
             w in s.workers && s.workers[w].pc.Current() == Some(Run(j, events).workers[w].pc.item)
    ensures var s, i := Run(j, events + [Advance(w)] + after), Run(j, events).workers[w].pc.item;
            && LeaseRuns(j, s, w, i, Run(j, events).db.clock)
            && (Visible(s.db, j.LeaseKey(i)) <==> Ticks(after) < LEASE_SECS)
            && s.db.clock == Run(j, events).db.clock + Ticks(after)
  {
    hide Run, Step;
    var i, since := Run(j, events).workers[w].pc.item, Run(j, events).db.clock;
    if after == [] {
      assert events + [Advance(w)] + after == events + [Advance(w)];
      LeaseNoted(j, events, w);
    } else {
      var before := events + [Advance(w)] + DropLast(after);
      assert events + [Advance(w)] + after == before + [Last(after)];
      RunAppend(j, before, Last(after));
      RunKeepsAccount(j, before);
      HistoryGrows(j, events, [Advance(w)] + DropLast(after), w);
      assert events + ([Advance(w)] + DropLast(after)) == before;
      CurrentRecorded(j, events, w);
      CurrentSince(j, Run(j, before), Last(after), w, i);
      LeaseIsSeenForItsTime(j, events, w, DropLast(after));
      StepKeepsLease(j, Run(j, before), Last(after), w, i, since);
    }
  }

  /** An item once taken never waits again, not even when its lease expires or
      its worker crashes: the waiting items only become fewer. */
  lemma {:induction false} NothingReturnsToTheQueue<M>(j: Job<M>, events: seq<Event>, after: seq<Event>)
    ensures Run(j, events + after).db.main <= Run(j, events).db.main
  {
    hide Run, Step;
    if after == [] {
      assert events + after == events;
    } else {
      NothingReturnsToTheQueue(j, events, DropLast(after));
      assert events + after == events + DropLast(after) + [Last(after)];
      RunAppend(j, events + DropLast(after), Last(after));
      StepOnLists(j, Run(j, events + DropLast(after)), Last(after));
    }
  }

  // ----- complete() refines an atomic removal -----

  /** The queue as a client thinks of it: complete() is one step. */
  datatype Ledger = Ledger(waiting: seq<Item>, inProgress: multiset<Item>, done: seq<Entry>)

  datatype LedgerMove = Take | Finish(w: Session, item: Item) | Stay

  predicate LedgerEnabled(l: Ledger, m: LedgerMove) {
    match m
    case Take => l.waiting != []
    case Finish(_, i) => l.inProgress[i] == 1
    case Stay => true
  }

  function LedgerStep(l: Ledger, m: LedgerMove): Ledger
    requires LedgerEnabled(l, m)
  {
    match m
    case Take => Ledger(DropLast(l.waiting), l.inProgress + multiset{Last(l.waiting)}, l.done)
    case Finish(w, i) => Ledger(l.waiting, l.inProgress - multiset{i}, l.done + [Entry(w, i)])
    case Stay => l
  }

  function LedgerOf<M>(s: State<M>): Ledger {
    Ledger(s.db.main, multiset(s.db.processing), s.completed)
  }

  function MoveOf<M>(s: State<M>, e: Event): LedgerMove {
    if Pops(s, e) then Take
    else if Removes(s, e) then Finish(e.w, s.workers[e.w].pc.item)
    else Stay
  }

  /** Each event, crashes between the two commands of complete() included, is
      one move of the ledger: LREM alone is the atomic removal, of exactly one
      item in progress, and DEL, SETEX and expiry do not show. */
  lemma CompleteRefinesAtomicRemoval<M>(j: Job<M>, events: seq<Event>, e: Event)
    requires j.UniqueItems()
    ensures var s := Run(j, events);
            && LedgerEnabled(LedgerOf(s), MoveOf(s, e))
            && LedgerOf(Run(j, events + [e])) == LedgerStep(LedgerOf(s), MoveOf(s, e))
  {
    hide Run;
    var s := Run(j, events);
    RunAppend(j, events, e);
    RunKeepsAccount(j, events);
    StepOnLists(j, s, e);
    if Removes(s, e) {
      assert Held(s, e.w);
      RemovedOnce(j, s, s.workers[e.w].pc.item);
    }
  }

  // ----- Progress -----

  /** Every lease and every removal uses up exactly one unit of 2|main| + |processing|. */
  lemma ProgressIsCounted<M>(j: Job<M>, events: seq<Event>)
    requires j.UniqueItems()
    ensures var s := Run(j, events);
            2 * |s.db.main| + |s.db.processing| == 2 * |j.initial| - |s.leased| - |s.completed|
  {
    var s := Run(j, events);
    RunKeepsAccount(j, events);
    assert |multiset(s.db.main) + multiset(s.db.processing) + multiset(Items(s.completed))| == |multiset(j.initial)|;
  }
}
