/** The work queue client, the trainer and the worker loop as the single process
    that runs them sees them. */
module SequentialWorker {
  import opened Collections
  import opened Redis
  import opened WorkQueue

  class RedisServer {
    var db: Db

    constructor (db: Db)
      ensures this.db == db
    {
      this.db := db;
    }
  }

  class RedisWQ<!M> {
    const server: RedisServer
    const session: Session
    const job: Job<M>

    constructor (server: RedisServer, session: Session, job: Job<M>)
      ensures this.server == server && this.session == session && this.job == job
    {
      this.server, this.session, this.job := server, session, job;
    }

    method MainQSize() returns (n: nat)
      ensures n == |server.db.main|
    {
      n := |server.db.main|;
    }

    method ProcessingQSize() returns (n: nat)
      ensures n == |server.db.processing|
    {
      n := |server.db.processing|;
    }

    /** True if no item is waiting and none is being worked on. */
    method Empty() returns (empty: bool)
      ensures empty <==> server.db.main == [] && server.db.processing == []
    {
      var waiting := MainQSize();
      if waiting == 0 {
        var processing := ProcessingQSize();
        empty := processing == 0;
      } else {
        empty := false;
      }
    }

    /** A lease is visible until its time has come, reclaimed or not. */
    method LeaseExists(item: Item) returns (leased: bool)
      ensures leased <==> Visible(server.db, job.LeaseKey(item))
    {
      leased := Visible(server.db, job.LeaseKey(item));
    }

    /** Takes the last waiting item, if any, and notes a lease on it that this
        session sees until `leaseSecs` have passed. The empty item gets none. */
    method Lease(leaseSecs: nat) returns (item: Option<Item>)
      modifies server
      ensures old(server.db).main == [] ==> item.None? && server.db == old(server.db)
      ensures old(server.db).main != [] ==>
                && item.Some?
                && old(server.db).main == server.db.main + [item.value]
                && server.db.processing == [item.value] + old(server.db).processing
                && server.db.clock == old(server.db).clock
                && server.db.leases
                     == if item.value == "" then old(server.db).leases
                        else old(server.db).leases[job.LeaseKey(item.value) :=
                                                   Redis.Lease(session, old(server.db).clock + leaseSecs)]
    {
      var (popped, db) := RPopLPush(server.db);
      item, server.db := popped, db;
      if item.Some? && item.value != "" {
        server.db := SetEx(server.db, job.LeaseKey(item.value), leaseSecs, session);
      }
    }

    /** Removes every occurrence of `value` from processing, then its lease. */
    method Complete(value: Item)
      modifies server
      ensures server.db == old(server.db).(processing := server.db.processing, leases := server.db.leases)
      ensures multiset(server.db.processing) == multiset(old(server.db).processing)[value := 0]
      ensures server.db.leases == old(server.db).leases - {job.LeaseKey(value)}
    {
      WithoutMultiset(server.db.processing, value);
      server.db := LRem(server.db, value);
      server.db := Del(server.db, job.LeaseKey(value));
    }
  }

  class FileStore<M> {
    var files: map<Path, M>

    constructor (files: map<Path, M>)
      ensures this.files == files
    {
      this.files := files;
    }
  }

  class FraudDetectionModelTrainer<!M> {
    const job: Job<M>
    const dataset: Item
    var model: M

    /** Continues from the checkpoint, or starts a new model without one. */
    constructor (job: Job<M>, dataset: Item, store: FileStore<M>, checkpoint: Option<Path>)
      requires checkpoint.Some? ==> checkpoint.value in store.files
      ensures this.job == job && this.dataset == dataset
      ensures model == if checkpoint.Some? then store.files[checkpoint.value] else job.untrained
    {
      this.job, this.dataset := job, dataset;
      if checkpoint.Some? {
        this.model := store.files[checkpoint.value];
      } else {
        this.model := job.untrained;
      }
    }

    method TrainAndSave(store: FileStore<M>) returns (path: Path)
      modifies this`model, store
      ensures path == job.CheckpointPath(dataset)
           == "/mnt/fileserver/output/model_cpt_" + job.stem(dataset) + ".pkl"
      ensures model == job.fit(old(model), dataset)
      ensures store.files == old(store.files)[path := model]
    {
      model := job.fit(model, dataset);
      path := SaveModel(store);
    }

    method SaveModel(store: FileStore<M>) returns (path: Path)
      modifies store
      ensures path == job.CheckpointPath(dataset)
      ensures store.files == old(store.files)[path := model]
    {
      path := job.CheckpointPath(dataset);
      store.files := store.files[path := model];
    }
  }

  /** The part of an iteration between lease() and complete(). */
  method TrainOn<M>(job: Job<M>, item: Item, store: FileStore<M>, checkpoint: Option<Path>) returns (path: Path)
    requires checkpoint.Some? ==> checkpoint.value in store.files
    modifies store
    ensures path == job.CheckpointPath(item)
    ensures store.files
         == old(store.files)[path := job.fit(if checkpoint.Some? then old(store.files)[checkpoint.value]
                                             else job.untrained, item)]
  {
    var trainer := new FraudDetectionModelTrainer(job, item, store, checkpoint);
    path := trainer.TrainAndSave(store);
  }

  /** Works on the only item in processing and completes it. */
  method Process<M>(q: RedisWQ<M>, item: Item, store: FileStore<M>, checkpoint: Option<Path>) returns (path: Path)
    requires q.server.db.processing == [item]
    requires checkpoint.Some? ==> checkpoint.value in store.files
    modifies q.server, store
    ensures q.server.db == old(q.server.db).(processing := [],
                                             leases := old(q.server.db).leases - {q.job.LeaseKey(item)})
    ensures path == q.job.CheckpointPath(item)
    ensures store.files
         == old(store.files)[path := q.job.fit(if checkpoint.Some? then old(store.files)[checkpoint.value]
                                               else q.job.untrained, item)]
  {
    path := TrainOn(q.job, item, store, checkpoint);
    q.Complete(item);
    OnlyItemRemoved([item], q.server.db.processing, item);
  }

  lemma IterationIs<M>(j: Job<M>, before: Db, leased: Db, item: Item)
    requires before.main == leased.main + [item] && leased.clock == before.clock
    requires leased.leases - {j.LeaseKey(item)} == before.leases - {j.LeaseKey(item)}
    ensures leased.(processing := [], leases := leased.leases - {j.LeaseKey(item)}) == AfterIteration(j, before)
  {
  }

  /** One more item processed. */
  lemma HoldsNext<M>(j: Job<M>, files: map<Path, M>, checkpoint: Option<Path>, processed: seq<Item>, item: Item)
    requires Holds(j, files, checkpoint, processed)
    ensures var model := if checkpoint.Some? then files[checkpoint.value] else j.untrained;
            Holds(j, files[j.CheckpointPath(item) := j.fit(model, item)], Some(j.CheckpointPath(item)),
                  processed + [item])
  {
  }

  /** The checkpoint holds the model fitted on the processed items, in order. */
  ghost predicate Holds<M>(job: Job<M>, files: map<Path, M>, checkpoint: Option<Path>, processed: seq<Item>) {
    if processed == [] then checkpoint.None?
    else checkpoint.Some? && checkpoint.value in files && files[checkpoint.value] == job.Trained(processed)
  }

  lemma TailTaken(queue: seq<Item>, processed: seq<Item>, rest: seq<Item>, item: Item)
    requires processed + Reverse(rest + [item]) == Reverse(queue)
    ensures processed + [item] + Reverse(rest) == Reverse(queue)
  {
  }

  lemma OnlyItemRemoved(before: seq<Item>, after: seq<Item>, item: Item)
    requires before == [item] && multiset(after) == multiset(before)[item := 0]
    ensures after == []
  {
    assert |multiset(after)| == 0;
  }

  // ----- The lone worker as a run of the many-worker system -----

  /** The state in which worker `w` is the only one, at `pc`. */
  ghost predicate Alone<M>(s: State<M>, db: Db, files: map<Path, M>, w: Session, pc: Pc<M>, checkpoint: Option<Path>) {
    s.db == db && s.files == files && s.workers == map[w := Worker(pc, checkpoint)]
  }

  /** The database after an item was taken, worked on and completed. */
  function AfterIteration<M>(j: Job<M>, db: Db): Db
    requires db.main != []
  {
    Db(DropLast(db.main), [], db.leases - {j.LeaseKey(Last(db.main))}, db.clock)
  }

  lemma TakesItem<M>(j: Job<M>, events: seq<Event>, db: Db, files: map<Path, M>, w: Session, checkpoint: Option<Path>)
    returns (after: seq<Event>)
    requires Alone(Run(j, events), db, files, w, Pop, checkpoint)
    requires db.main != [] && db.processing == []
    ensures var i := Last(db.main);
            Alone(Run(j, after),
                  Db(DropLast(db.main), [i],
                     if i == "" then db.leases else db.leases[j.LeaseKey(i) := Redis.Lease(w, db.clock + LEASE_SECS)],
                     db.clock),
                  files, w, Load(i), checkpoint)
  {
    hide Run;
    RunAppend(j, events, Advance(w));
    RunAppend(j, events + [Advance(w)], Advance(w));
    assert [Last(db.main)] + [] == [Last(db.main)];
    after := if Last(db.main) == "" then events + [Advance(w)] else events + [Advance(w)] + [Advance(w)];
  }

  lemma FitsAndSaves<M>(j: Job<M>, events: seq<Event>, db: Db, files: map<Path, M>, w: Session, i: Item,
                        checkpoint: Option<Path>) returns (after: seq<Event>)
    requires Alone(Run(j, events), db, files, w, Load(i), checkpoint)
    requires checkpoint.Some? ==> checkpoint.value in files
    ensures var model := if checkpoint.Some? then files[checkpoint.value] else j.untrained;
            Alone(Run(j, after), db, files[j.CheckpointPath(i) := j.fit(model, i)],
                  w, Remove(i), Some(j.CheckpointPath(i)))
  {
    hide Run;
    RunAppend(j, events, Advance(w));
    RunAppend(j, events + [Advance(w)], Advance(w));
    after := events + [Advance(w)] + [Advance(w)];
  }

  lemma Completes<M>(j: Job<M>, events: seq<Event>, db: Db, files: map<Path, M>, w: Session, i: Item,
                     checkpoint: Option<Path>) returns (after: seq<Event>)
    requires Alone(Run(j, events), db, files, w, Remove(i), checkpoint) && db.processing == [i]
    ensures Alone(Run(j, after), Db(db.main, [], db.leases - {j.LeaseKey(i)}, db.clock),
                  files, w, CheckMain, checkpoint)
  {
    hide Run;
    RunAppend(j, events, Advance(w));
    RunAppend(j, events + [Advance(w)], Advance(w));
    assert Without([i], i) == [];
    after := events + [Advance(w)] + [Advance(w)];
  }

  /** One iteration of the loop, from the check that finds the main list not empty. */
  lemma IterationRuns<M>(j: Job<M>, events: seq<Event>, db: Db, files: map<Path, M>, w: Session,
                         checkpoint: Option<Path>) returns (after: seq<Event>)
    requires Alone(Run(j, events), db, files, w, CheckMain, checkpoint)
    requires db.main != [] && db.processing == [] && (checkpoint.Some? ==> checkpoint.value in files)
    ensures var i := Last(db.main);
            var model := if checkpoint.Some? then files[checkpoint.value] else j.untrained;
            Alone(Run(j, after), AfterIteration(j, db), files[j.CheckpointPath(i) := j.fit(model, i)],
                  w, CheckMain, Some(j.CheckpointPath(i)))
  {
    var i := Last(db.main);
    RunAppend(j, events, Advance(w));
    hide Run, Step;
    after := TakesItem(j, events + [Advance(w)], db, files, w, checkpoint);
    var taken := Run(j, after).db;
    after := FitsAndSaves(j, after, taken, files, w, i, checkpoint);
    var saved := Run(j, after).files;
    after := Completes(j, after, taken, saved, w, i, Some(j.CheckpointPath(i)));
    assert taken.leases - {j.LeaseKey(i)} == db.leases - {j.LeaseKey(i)};
  }

  lemma StartsUp<M>(j: Job<M>, w: Session) returns (events: seq<Event>)
    ensures Alone(Run(j, events), Initial(j).db, j.files, w, CheckMain, None)
  {
    RunAppend(j, [], Start(w));
    RunAppend(j, [] + [Start(w)], Advance(w));
    RunAppend(j, [] + [Start(w)] + [Advance(w)], Advance(w));
    events := [] + [Start(w)] + [Advance(w)];
    if |j.initial| == 0 {
      events := events + [Advance(w)];
    }
  }

  lemma LeavesLoop<M>(j: Job<M>, events: seq<Event>, db: Db, files: map<Path, M>, w: Session, checkpoint: Option<Path>)
    returns (after: seq<Event>)
    requires Alone(Run(j, events), db, files, w, CheckMain, checkpoint) && db.main == [] && db.processing == []
    ensures Alone(Run(j, after), db, files, w, Exited, checkpoint)
  {
    hide Run;
    RunAppend(j, events, Advance(w));
    RunAppend(j, events + [Advance(w)], Advance(w));
    after := events + [Advance(w)] + [Advance(w)];
  }

  /** The queue has just been filled, and no lease is left from before. */
  ghost predicate FreshStart<M>(j: Job<M>, db: Db, files: map<Path, M>) {
    db == Initial(j).db && files == j.files
  }

  /** A lone worker that finds the processing list empty processes the whole
      queue from tail to head, one item an iteration, and then leaves; its last
      checkpoint holds the model fitted on all of it in that order. */
  method RunWorker<M>(job: Job<M>, server: RedisServer, session: Session, store: FileStore<M>)
    returns (iterations: nat, processed: seq<Item>, checkpoint: Option<Path>, ghost events: seq<Event>)
    requires server.db.processing == []
    modifies server, store
    ensures server.db.main == [] && server.db.processing == [] && server.db.clock == old(server.db).clock
    ensures iterations == |old(server.db).main|
    ensures processed == Reverse(old(server.db).main)
    ensures forall i :: i in processed ==> job.LeaseKey(i) !in server.db.leases
    ensures Holds(job, store.files, checkpoint, processed)
    ensures FreshStart(job, old(server.db), old(store.files)) ==>
              Alone(Run(job, events), server.db, store.files, session, Exited, checkpoint)
  {
    hide Run, Alone, AfterIteration, Job.Trained;
    ghost var fromStart := FreshStart(job, server.db, store.files);
    events := StartsUp(job, session);
    var q := new RedisWQ(server, session, job);
    iterations, processed, checkpoint := 0, [], None;
    var empty := q.Empty();
    while !empty
      invariant q.server == server && q.job == job && q.session == session
      invariant empty <==> server.db.main == [] && server.db.processing == []
      invariant server.db.processing == [] && server.db.clock == old(server.db).clock
      invariant iterations == |processed|
      invariant processed + Reverse(server.db.main) == Reverse(old(server.db).main)
      invariant forall i :: i in processed ==> job.LeaseKey(i) !in server.db.leases
      invariant Holds(job, store.files, checkpoint, processed)
      invariant fromStart ==> Alone(Run(job, events), server.db, store.files, session, CheckMain, checkpoint)
      decreases |server.db.main|
    {
      ghost var before := server.db;
      if fromStart {
        events := IterationRuns(job, events, server.db, store.files, session, checkpoint);
      }
      var item := q.Lease(LEASE_SECS);
      if item.Some? {
        TailTaken(old(server.db).main, processed, server.db.main, item.value);
        assert server.db.leases - {job.LeaseKey(item.value)} == before.leases - {job.LeaseKey(item.value)};
        IterationIs(job, before, server.db, item.value);
        HoldsNext(job, store.files, checkpoint, processed, item.value);
        var path := Process(q, item.value, store, checkpoint);
        processed, checkpoint := processed + [item.value], Some(path);
        iterations := iterations + 1;
      }
      empty := q.Empty();
    }
    if fromStart {
      events := LeavesLoop(job, events, server.db, store.files, session, checkpoint);
    }
  }
}
