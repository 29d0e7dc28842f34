/** Any number of workers sharing one Redis work queue.

    One step is one Redis command, one file operation, a tick of the clock, the
    reclaiming of an expired key, the start of a worker, or a crash. A run is
    any sequence of events; an event that cannot happen changes nothing, so
    every statement below about `Run(j, events)` is a statement about every
    interleaving. */
module WorkQueue {
  import opened Collections
  import opened Redis

  type Path = string

  const LEASE_SECS: nat := 20
  const LEASE_PREFIX := "datasets:leased_by_session:"
  const CHECKPOINT_PREFIX := "/mnt/fileserver/output/model_cpt_"
  const CHECKPOINT_SUFFIX := ".pkl"

  /** What a run is given: the queued items, the files that earlier runs left on
      the file server, the item hash, the file stem of a dataset path, a new
      model, and the partial fit of a model on a dataset. */
  datatype Job<!M> = Job(initial: seq<Item>, files: map<Path, M>, hash: Item -> string, stem: Item -> string,
                         untrained: M, fit: (M, Item) -> M)
  {
    function LeaseKey(item: Item): string {
      LEASE_PREFIX + hash(item)
    }

    function CheckpointPath(item: Item): Path {
      CHECKPOINT_PREFIX + stem(item) + CHECKPOINT_SUFFIX
    }

    /** The model fitted on `items` one after the other. */
    function Trained(items: seq<Item>): M {
      if items == [] then untrained else fit(Trained(DropLast(items)), Last(items))
    }

    ghost predicate UniqueItems() {
      Distinct(initial)
    }

    ghost predicate UniqueStems() {
      forall i, j :: 0 <= i < j < |initial| ==> stem(initial[i]) != stem(initial[j])
    }

    ghost predicate InjectiveHash() {
      forall a, b :: hash(a) == hash(b) ==> a == b
    }
  }

  /** Where a worker stands: the command it issues next. */
  datatype Pc<M> =
    | AnnounceMain                      // the first, printed, empty()
    | AnnounceProcessing
    | CheckMain                         // empty(): LLEN main
    | CheckProcessing                   // empty(): LLEN processing
    | Pop                               // lease(): BRPOPLPUSH
    | SetLease(item: Item)              // lease(): SETEX
    | Load(item: Item)                  // open the checkpoint, then fit
    | Save(item: Item, model: M)        // write the checkpoint
    | Remove(item: Item)                // complete(): LREM
    | DeleteLease(item: Item)           // complete(): DEL
    | Exited
    | Crashed(at: Pc<M>)
  {
    /** The item the worker has popped and not removed. */
    function Holding(): Option<Item> {
      match this
      case SetLease(i) => Some(i)
      case Load(i) => Some(i)
      case Save(i, _) => Some(i)
      case Remove(i) => Some(i)
      case Crashed(pc) => pc.Holding()
      case _ => None
    }

    /** The item of the current iteration, also after its removal. */
    function Current(): Option<Item> {
      match this
      case DeleteLease(i) => Some(i)
      case Crashed(pc) => pc.Current()
      case _ => Holding()
    }

    /** The worker has leased an item and not yet saved the model fitted on it. */
    predicate Unsaved() {
      match this
      case SetLease(_) => true
      case Load(_) => true
      case Save(_, _) => true
      case Crashed(pc) => pc.Unsaved()
      case _ => false
    }
  }

  datatype Worker<M> = Worker(pc: Pc<M>, checkpoint: Option<Path>)

  /** One entry of a history: a session and an item. */
  datatype Entry = Entry(session: Session, item: Item)

  /** `leased` and `completed` are histories: the pops and the removals so far.
      No step reads them. */
  datatype State<M> = State(db: Db, files: map<Path, M>, workers: map<Session, Worker<M>>,
                            leased: seq<Entry>, completed: seq<Entry>)

  datatype Event = Start(w: Session) | Advance(w: Session) | Crash(w: Session) | Tick | Expire(key: string)

  function Initial<M>(j: Job<M>): State<M> {
    State(Db(j.initial, [], map[], 0), j.files, map[], [], [])
  }

  function Step<M>(j: Job<M>, s: State<M>, e: Event): State<M> {
    match e
    case Start(w) =>
      if w in s.workers then s else s.(workers := s.workers[w := Worker(AnnounceMain, None)])
    case Advance(w) =>
      if w in s.workers then Command(j, s, w) else s
    case Crash(w) =>
      if w in s.workers && !s.workers[w].pc.Exited? && !s.workers[w].pc.Crashed?
      then Goto(s, w, Crashed(s.workers[w].pc)) else s
    case Tick => s.(db := s.db.(clock := s.db.clock + 1))
    case Expire(key) => s.(db := Reclaim(s.db, key))
  }

  function Goto<M>(s: State<M>, w: Session, pc: Pc<M>): State<M>
    requires w in s.workers
  {
    s.(workers := s.workers[w := s.workers[w].(pc := pc)])
  }

  /** The next command of worker `w`, executed atomically. */
  function Command<M>(j: Job<M>, s: State<M>, w: Session): State<M>
    requires w in s.workers
  {
    match s.workers[w].pc
    case AnnounceMain => Goto(s, w, if |s.db.main| == 0 then AnnounceProcessing else CheckMain)
    case AnnounceProcessing => Goto(s, w, CheckMain)
    case CheckMain => Goto(s, w, if |s.db.main| == 0 then CheckProcessing else Pop)
    case CheckProcessing => Goto(s, w, if |s.db.processing| == 0 then Exited else Pop)
    case Pop =>
      var (item, db) := RPopLPush(s.db);
      if item.None? then Goto(s, w, CheckMain)
      else
        var s' := s.(db := db, leased := s.leased + [Entry(w, item.value)]);
        Goto(s', w, if item.value != "" then SetLease(item.value) else Load(item.value))
    case SetLease(i) =>
      Goto(s.(db := SetEx(s.db, j.LeaseKey(i), LEASE_SECS, w)), w, Load(i))
    case Load(i) =>
      var checkpoint := s.workers[w].checkpoint;
      if checkpoint.None? then Goto(s, w, Save(i, j.fit(j.untrained, i)))
      else if checkpoint.value in s.files then Goto(s, w, Save(i, j.fit(s.files[checkpoint.value], i)))
      else Goto(s, w, Crashed(Load(i)))
    case Save(i, model) =>
      var path := j.CheckpointPath(i);
      s.(files := s.files[path := model],
         workers := s.workers[w := Worker(Remove(i), Some(path))])
    case Remove(i) =>
      Goto(s.(db := LRem(s.db, i), completed := s.completed + [Entry(w, i)]), w, DeleteLease(i))
    case DeleteLease(i) =>
      Goto(s.(db := Del(s.db, j.LeaseKey(i))), w, CheckMain)
    case Exited => s
    case Crashed(_) => s
  }

  function Run<M>(j: Job<M>, events: seq<Event>): State<M> {
    if events == [] then Initial(j) else Step(j, Run(j, DropLast(events)), Last(events))
  }

  lemma RunAppend<M>(j: Job<M>, events: seq<Event>, e: Event)
    ensures Run(j, events + [e]) == Step(j, Run(j, events), e)
  {
  }

  /** The items a history records, and those it records for one session. */
  function Items(h: seq<Entry>): seq<Item> {
    seq(|h|, k requires 0 <= k < |h| => h[k].item)
  }

  function Own(h: seq<Entry>, w: Session): seq<Item> {
    if h == [] then []
    else if Last(h).session == w then Own(DropLast(h), w) + [Last(h).item]
    else Own(DropLast(h), w)
  }

  lemma OwnAppend(h: seq<Entry>, e: Entry, w: Session)
    ensures Own(h + [e], w) == if e.session == w then Own(h, w) + [e.item] else Own(h, w)
  {
  }

  lemma {:induction false} OwnRecorded(h: seq<Entry>, w: Session, i: Item)
    ensures i in Own(h, w) <==> Entry(w, i) in h
  {
    if h != [] {
      SplitLast(h);
      OwnRecorded(DropLast(h), w, i);
      assert Entry(w, i) in h <==> Entry(w, i) in DropLast(h) || Entry(w, i) == Last(h);
    }
  }

  // ----- What every step keeps, whatever the items are -----

  /** The main list is what remains of the initial one; the leases took the rest from its tail. */
  ghost predicate Ordered<M>(j: Job<M>, s: State<M>) {
    && |s.db.main| + |s.leased| == |j.initial|
    && s.db.main == j.initial[..|s.db.main|]
    && forall k :: 0 <= k < |s.leased| ==> s.leased[k].item == j.initial[|j.initial| - 1 - k]
  }

  /** A worker that has read an empty main list is right, and an exited one is right about both. */
  ghost predicate Quiet<M>(s: State<M>) {
    forall w :: w in s.workers ==> QuietWorker(s, s.workers[w].pc)
  }

  ghost predicate QuietWorker<M>(s: State<M>, pc: Pc<M>) {
    && (pc.AnnounceProcessing? || pc.CheckProcessing? || pc.Exited? ==> s.db.main == [])
    && (pc.Exited? ==> s.db.processing == [])
  }

  /** The event pops an item for its worker. */
  predicate Pops<M>(s: State<M>, e: Event) {
    e.Advance? && e.w in s.workers && s.workers[e.w].pc.Pop? && s.db.main != []
  }

  /** The event removes an item from the processing list. */
  predicate Removes<M>(s: State<M>, e: Event) {
    e.Advance? && e.w in s.workers && s.workers[e.w].pc.Remove?
  }

  /** What one event does to the two lists and the two histories. */
  lemma StepOnLists<M>(j: Job<M>, s: State<M>, e: Event)
    ensures var s' := Step(j, s, e);
            if Pops(s, e) then
              && s'.db.main == DropLast(s.db.main)
              && s'.db.processing == [Last(s.db.main)] + s.db.processing
              && s'.leased == s.leased + [Entry(e.w, Last(s.db.main))]
              && s'.completed == s.completed
            else if Removes(s, e) then
              && s'.db.main == s.db.main
              && s'.db.processing == Without(s.db.processing, s.workers[e.w].pc.item)
              && s'.leased == s.leased
              && s'.completed == s.completed + [Entry(e.w, s.workers[e.w].pc.item)]
            else
              && s'.db.main == s.db.main
              && s'.db.processing == s.db.processing
              && s'.leased == s.leased
              && s'.completed == s.completed
  {
  }

  /** The worker the event is about, if any. */
  predicate Moves(e: Event, w: Session) {
    (e.Start? || e.Advance? || e.Crash?) && e.w == w
  }

  /** An event leaves every worker alone but the one it names. */
  lemma StepOnWorkers<M>(j: Job<M>, s: State<M>, e: Event, w: Session)
    requires !Moves(e, w)
    ensures var s' := Step(j, s, e);
            (w in s'.workers <==> w in s.workers) && (w in s.workers ==> s'.workers[w] == s.workers[w])
  {
  }

  lemma StepKeepsOrder<M>(j: Job<M>, s: State<M>, e: Event)
    requires Ordered(j, s)
    ensures Ordered(j, Step(j, s, e))
  {
    StepOnLists(j, s, e);
  }

  lemma StepKeepsQuiet<M>(j: Job<M>, s: State<M>, e: Event)
    requires Quiet(s)
    ensures Quiet(Step(j, s, e))
  {
    var s' := Step(j, s, e);
    StepOnLists(j, s, e);
    forall w | w in s'.workers
      ensures QuietWorker(s', s'.workers[w].pc)
    {
      if !Moves(e, w) {
        StepOnWorkers(j, s, e, w);
        assert QuietWorker(s, s.workers[w].pc);
      }
    }
  }

  lemma {:induction false} RunKeepsOrder<M>(j: Job<M>, events: seq<Event>)
    ensures Ordered(j, Run(j, events)) && Quiet(Run(j, events))
  {
    if events == [] {
      assert j.initial[..|j.initial|] == j.initial;
    } else {
      RunKeepsOrder(j, DropLast(events));
      StepKeepsOrder(j, Run(j, DropLast(events)), Last(events));
      StepKeepsQuiet(j, Run(j, DropLast(events)), Last(events));
    }
  }

  /** The leases so far, followed by the main list backwards, are the initial list backwards. */
  lemma LeasesTakeTheQueueInOrder<M>(j: Job<M>, events: seq<Event>)
    ensures var s := Run(j, events);
            Items(s.leased) + Reverse(s.db.main) == Reverse(j.initial)
  {
    hide Run;
    RunKeepsOrder(j, events);
  }
}
