/** What a crash in the middle of an item means for everybody else. */
module Abandonment {
  import opened Collections
  import opened Redis
  import opened WorkQueue
  import opened Leasing

  ghost predicate Abandons<M>(s: State<M>, w: Session) {
    w in s.workers && s.workers[w].pc.Crashed? && s.workers[w].pc.Holding().Some?
  }

  ghost predicate NothingAbandoned<M>(s: State<M>) {
    forall w :: w in s.workers ==> !Abandons(s, w)
  }

  ghost predicate SomeoneExited<M>(s: State<M>) {
    exists w :: w in s.workers && s.workers[w].pc.Exited?
  }

  /** Some continuation of the run lets a worker leave its loop. */
  ghost predicate CanExit<M>(j: Job<M>, events: seq<Event>) {
    exists after :: SomeoneExited(Run(j, events + after))
  }

  lemma {:induction false} CrashedStays<M>(j: Job<M>, events: seq<Event>, after: seq<Event>, w: Session)
    requires w in Run(j, events).workers && Run(j, events).workers[w].pc.Crashed?
    ensures w in Run(j, events + after).workers && Run(j, events + after).workers[w] == Run(j, events).workers[w]
  {
    hide Run;
    if after == [] {
      assert events + after == events;
    } else {
      CrashedStays(j, events, DropLast(after), w);
      assert events + after == events + DropLast(after) + [Last(after)];
      RunAppend(j, events + DropLast(after), Last(after));
      var s := Run(j, events + DropLast(after));
      if !Moves(Last(after), w) {
        StepOnWorkers(j, s, Last(after), w);
      }
    }
  }

  /** A worker can crash at any point of its loop. What it held it holds on to, and
      the database, the files and the other workers are as they were. */
  lemma CrashAnywhere<M>(j: Job<M>, events: seq<Event>, w: Session)
    requires w in Run(j, events).workers
    requires !Run(j, events).workers[w].pc.Exited? && !Run(j, events).workers[w].pc.Crashed?
    ensures var s, s' := Run(j, events), Run(j, events + [Crash(w)]);
            && s'.db == s.db && s'.files == s.files && s'.leased == s.leased && s'.completed == s.completed
            && s'.workers.Keys == s.workers.Keys
            && (forall v :: v in s.workers && v != w ==> s'.workers[v] == s.workers[v])
            && s'.workers[w].pc.Crashed? && s'.workers[w].pc.Holding() == s.workers[w].pc.Holding()
  {
    hide Run;
    RunAppend(j, events, Crash(w));
  }

  /** The item of a worker that crashed between pop and removal stays in
      processing for ever, and no worker exits. */
  lemma AbandonedItemBlocksEveryExit<M>(j: Job<M>, events: seq<Event>, after: seq<Event>, w: Session)
    requires j.UniqueItems() && Abandons(Run(j, events), w)
    ensures var s := Run(j, events + after);
            && Run(j, events).workers[w].pc.Holding().value in s.db.processing
            && !SomeoneExited(s)
  {
    var s := Run(j, events + after);
    CrashedStays(j, events, after, w);
    RunKeepsAccount(j, events + after);
    RunKeepsOrder(j, events + after);
    assert Held(s, w);
    forall v | v in s.workers ensures !s.workers[v].pc.Exited? {
      assert QuietWorker(s, s.workers[v].pc);
    }
  }

  // ----- Without an abandoned item the workers can always finish -----

  ghost predicate FilesPresent<M>(s: State<M>) {
    forall w :: w in s.workers && s.workers[w].checkpoint.Some? ==> s.workers[w].checkpoint.value in s.files
  }

  lemma StepKeepsFiles<M>(j: Job<M>, s: State<M>, e: Event)
    requires FilesPresent(s)
    ensures FilesPresent(Step(j, s, e))
  {
    var s' := Step(j, s, e);
    forall w | w in s'.workers && s'.workers[w].checkpoint.Some?
      ensures s'.workers[w].checkpoint.value in s'.files
    {
      if !Moves(e, w) {
        StepOnWorkers(j, s, e, w);
      }
    }
  }

  lemma {:induction false} RunKeepsFiles<M>(j: Job<M>, events: seq<Event>)
    ensures FilesPresent(Run(j, events))
  {
    if events != [] {
      RunKeepsFiles(j, DropLast(events));
      StepKeepsFiles(j, Run(j, DropLast(events)), Last(events));
    }
  }

  ghost predicate Live<M>(s: State<M>, w: Session) {
    w in s.workers && !s.workers[w].pc.Crashed?
  }

  /** Starting and working crashes nobody. */
  lemma WorkingKeepsLive<M>(j: Job<M>, events: seq<Event>, e: Event, w: Session)
    requires Live(Run(j, events), w) && (e.Start? || e.Advance?)
    ensures Live(Run(j, events + [e]), w)
  {
    hide Run;
    RunAppend(j, events, e);
    RunKeepsFiles(j, events);
    if !Moves(e, w) {
      StepOnWorkers(j, Run(j, events), e, w);
    }
  }

  lemma WorkingAbandonsNothing<M>(j: Job<M>, events: seq<Event>, e: Event)
    requires NothingAbandoned(Run(j, events)) && (e.Start? || e.Advance?)
    ensures Run(j, events + [e]) == Step(j, Run(j, events), e)
    ensures NothingAbandoned(Run(j, events + [e]))
    ensures forall w :: Live(Run(j, events), w) ==> Live(Run(j, events + [e]), w)
  {
    forall w | Live(Run(j, events), w) ensures Live(Run(j, events + [e]), w) {
      WorkingKeepsLive(j, events, e, w);
    }
    hide Run;
    var s := Run(j, events);
    RunAppend(j, events, e);
    RunKeepsFiles(j, events);
    forall w | w in Step(j, s, e).workers ensures !Abandons(Step(j, s, e), w) {
      if Moves(e, w) {
        assert w in s.workers ==> !Abandons(s, w);
      } else {
        StepOnWorkers(j, s, e, w);
        assert !Abandons(s, w);
      }
    }
  }

  function WorkLeft<M>(s: State<M>): nat {
    2 * |s.db.main| + |s.db.processing|
  }

  function StepsToRemoval<M>(pc: Pc<M>): nat {
    match pc
    case SetLease(_) => 4
    case Load(_) => 3
    case Save(_, _) => 2
    case Remove(_) => 1
    case _ => 0
  }

  /** A live holder can carry its item through to the removal. */
  lemma {:induction false} FinishItem<M>(j: Job<M>, events: seq<Event>, w: Session) returns (more: seq<Event>)
    requires j.UniqueItems() && NothingAbandoned(Run(j, events))
    requires w in Run(j, events).workers && Run(j, events).workers[w].pc.Holding().Some?
    ensures NothingAbandoned(Run(j, events + more))
    ensures WorkLeft(Run(j, events + more)) < WorkLeft(Run(j, events))
    ensures forall v :: Live(Run(j, events), v) ==> Live(Run(j, events + more), v)
    decreases StepsToRemoval(Run(j, events).workers[w].pc)
  {
    hide Run;
    var s := Run(j, events);
    assert !Abandons(s, w);
    WorkingAbandonsNothing(j, events, Advance(w));
    RunKeepsFiles(j, events);
    StepOnLists(j, s, Advance(w));
    if s.workers[w].pc.Remove? {
      ProgressIsCounted(j, events);
      ProgressIsCounted(j, events + [Advance(w)]);
      more := [Advance(w)];
    } else {
      var rest := FinishItem(j, events + [Advance(w)], w);
      more := [Advance(w)] + rest;
      assert events + more == events + [Advance(w)] + rest;
    }
  }

  lemma {:induction false} FreshSession(sessions: set<Session>) returns (w: Session)
    ensures forall v :: v in sessions ==> v < w
  {
    if sessions == {} {
      w := 0;
    } else {
      var v :| v in sessions;
      var u := FreshSession(sessions - {v});
      w := if v < u then u else v + 1;
      assert forall x :: x in sessions ==> x == v || x in sessions - {v};
    }
  }

  /** Worker `w` starts and takes n steps. */
  function Turns(events: seq<Event>, w: Session, n: nat): seq<Event> {
    if n == 0 then events + [Start(w)] else Turns(events, w, n - 1) + [Advance(w)]
  }

  lemma {:induction false} TurnsExtend(events: seq<Event>, w: Session, n: nat)
    ensures |events| <= |Turns(events, w, n)| && Turns(events, w, n)[..|events|] == events
  {
    if n > 0 {
      TurnsExtend(events, w, n - 1);
    }
  }

  /** When nothing is in processing, a new worker takes the next item. */
  lemma NewWorker<M>(j: Job<M>, events: seq<Event>, w: Session)
    requires NothingAbandoned(Run(j, events)) && w !in Run(j, events).workers
    requires Run(j, events).db.processing == [] && Run(j, events).db.main != []
    ensures NothingAbandoned(Run(j, Turns(events, w, 3)))
    ensures WorkLeft(Run(j, Turns(events, w, 3))) < WorkLeft(Run(j, events))
    ensures forall v :: Live(Run(j, events), v) ==> Live(Run(j, Turns(events, w, 3)), v)
  {
    hide Run, NothingAbandoned, Live;
    WorkingAbandonsNothing(j, events, Start(w));
    WorkingAbandonsNothing(j, Turns(events, w, 0), Advance(w));
    WorkingAbandonsNothing(j, Turns(events, w, 1), Advance(w));
    WorkingAbandonsNothing(j, Turns(events, w, 2), Advance(w));
  }

  lemma MakeProgress<M>(j: Job<M>, events: seq<Event>) returns (more: seq<Event>)
    requires j.UniqueItems() && NothingAbandoned(Run(j, events)) && WorkLeft(Run(j, events)) > 0
    ensures NothingAbandoned(Run(j, events + more)) && WorkLeft(Run(j, events + more)) < WorkLeft(Run(j, events))
    ensures forall v :: Live(Run(j, events), v) ==> Live(Run(j, events + more), v)
  {
    hide Run, Live;
    var s := Run(j, events);
    if s.db.processing != [] {
      RunKeepsAccount(j, events);
      assert s.db.processing[0] in s.db.processing;
      var w :| Holder(s, w, s.db.processing[0]);
      more := FinishItem(j, events, w);
    } else {
      var w := FreshSession(s.workers.Keys);
      NewWorker(j, events, w);
      TurnsExtend(events, w, 3);
      more := Turns(events, w, 3)[|events|..];
      assert events + more == Turns(events, w, 3);
    }
  }

  /** The workers can do all the work that is left. */
  lemma {:induction false} FinishWork<M>(j: Job<M>, events: seq<Event>) returns (more: seq<Event>)
    requires j.UniqueItems() && NothingAbandoned(Run(j, events))
    ensures WorkLeft(Run(j, events + more)) == 0
    ensures forall v :: Live(Run(j, events), v) ==> Live(Run(j, events + more), v)
    decreases WorkLeft(Run(j, events))
  {
    hide Run, Live, NothingAbandoned;
    if WorkLeft(Run(j, events)) == 0 {
      assert events + [] == events;
      more := [];
    } else {
      var some := MakeProgress(j, events);
      var rest := FinishWork(j, events + some);
      more := some + rest;
      assert events + more == events + some + rest;
    }
  }

  ghost predicate HasExited<M>(s: State<M>, w: Session) {
    w in s.workers && s.workers[w].pc.Exited?
  }

  function StepsToExit<M>(pc: Pc<M>): nat {
    match pc
    case AnnounceMain => 4
    case AnnounceProcessing => 3
    case Pop => 3
    case DeleteLease(_) => 3
    case CheckMain => 2
    case CheckProcessing => 1
    case _ => 0
  }

  /** With no work left every live worker walks out of its loop. */
  lemma {:induction false} WalkOut<M>(j: Job<M>, events: seq<Event>, w: Session) returns (more: seq<Event>)
    requires j.UniqueItems() && Live(Run(j, events), w) && WorkLeft(Run(j, events)) == 0
    ensures HasExited(Run(j, events + more), w)
    decreases StepsToExit(Run(j, events).workers[w].pc)
  {
    hide Run;
    var s := Run(j, events);
    RunKeepsAccount(j, events);
    assert Held(s, w);
    if s.workers[w].pc.Exited? {
      assert events + [] == events;
      more := [];
    } else {
      RunAppend(j, events, Advance(w));
      var rest := WalkOut(j, events + [Advance(w)], w);
      more := [Advance(w)] + rest;
      assert events + more == events + [Advance(w)] + rest;
    }
  }

  /** Some continuation of the run lets worker `w` leave its loop. */
  ghost predicate CanLeave<M>(j: Job<M>, events: seq<Event>, w: Session) {
    exists after :: HasExited(Run(j, events + after), w)
  }

  /** From every reachable state each worker that has not crashed can still leave
      its loop if and only if no crashed worker holds an item. */
  lemma EachCanLeaveIffNothingAbandoned<M>(j: Job<M>, events: seq<Event>, w: Session)
    requires j.UniqueItems() && Live(Run(j, events), w)
    ensures CanLeave(j, events, w) <==> NothingAbandoned(Run(j, events))
  {
    hide Run;
    if NothingAbandoned(Run(j, events)) {
      var work := FinishWork(j, events);
      var walk := WalkOut(j, events + work, w);
      assert events + work + walk == events + (work + walk);
    } else {
      var v :| Abandons(Run(j, events), v);
      forall after ensures !HasExited(Run(j, events + after), w) {
        AbandonedItemBlocksEveryExit(j, events, after, v);
      }
    }
  }

  /** From every reachable state some worker, perhaps one still to be started, can
      leave its loop if and only if no crashed worker holds an item. */
  lemma ExitPossibleIffNothingAbandoned<M>(j: Job<M>, events: seq<Event>)
    requires j.UniqueItems()
    ensures CanExit(j, events) <==> NothingAbandoned(Run(j, events))
  {
    hide Run;
    if NothingAbandoned(Run(j, events)) {
      var w := FreshSession(Run(j, events).workers.Keys);
      WorkingAbandonsNothing(j, events, Start(w));
      EachCanLeaveIffNothingAbandoned(j, events + [Start(w)], w);
      var after :| HasExited(Run(j, events + [Start(w)] + after), w);
      assert events + [Start(w)] + after == events + ([Start(w)] + after);
      assert SomeoneExited(Run(j, events + ([Start(w)] + after)));
    } else {
      var v :| Abandons(Run(j, events), v);
      forall after ensures !SomeoneExited(Run(j, events + after)) {
        AbandonedItemBlocksEveryExit(j, events, after, v);
      }
    }
  }
}
