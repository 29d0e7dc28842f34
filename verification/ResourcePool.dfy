/** The request pool of the web server: any number of requests share one counter. */
module ResourcePool {
  import opened Collections

  const POOL_SIZE := 50

  /** A tenth of the pool is kept back. */
  predicate MayAlloc(inUse: int) {
    (inUse as real) < (POOL_SIZE as real) * 0.9
  }

  /** The field `inUse` is the source's `allocated`, a word Dafny reserves.
      The mutex makes each method one atomic step. */
  class Pool {
    var inUse: int

    constructor ()
      ensures inUse == 0
    {
      inUse := 0;
    }

    method Alloc() returns (ok: bool)
      modifies this
      ensures ok <==> old(inUse) < 45
      ensures inUse == old(inUse) + (if ok then 1 else 0)
    {
      if MayAlloc(inUse) {
        inUse := inUse + 1;
        return true;
      }
      return false;
    }

    method Release()
      modifies this
      ensures inUse == old(inUse) - 1
    {
      inUse := inUse - 1;
    }

    method HasResources() returns (ok: bool)
      ensures ok <==> inUse < 50
    {
      return inUse < POOL_SIZE;
    }
  }

  type Request = nat

  /** `Serving` lasts from a successful alloc to the deferred release, whatever
      Redis answers and even if the handler panics. */
  datatype Handler = Arrived | Serving | Replied | Refused | Done

  datatype Event = Arrive(r: Request) | Advance(r: Request)

  datatype Server = Server(inUse: int, handlers: map<Request, Handler>) {

    predicate Healthy() {
      inUse < POOL_SIZE
    }

    function Goto(r: Request, h: Handler): Server {
      Server(inUse, handlers[r := h])
    }

    function Step(e: Event): Server {
      match e
      case Arrive(r) => if r in handlers then this else Goto(r, Arrived)
      case Advance(r) =>
        if r !in handlers then this
        else match handlers[r]
             case Arrived =>
               if MayAlloc(inUse)
               then Server(inUse + 1, handlers[r := Serving])
               else Goto(r, Refused)
             case Serving => Goto(r, Replied)
             case Replied => Server(inUse - 1, handlers[r := Done])
             case _ => this
    }

    /** The requests between a successful alloc and their release. */
    ghost function Holders(): set<Request> {
      set r | r in handlers && (handlers[r].Serving? || handlers[r].Replied?)
    }
  }

  function Run(events: seq<Event>): Server {
    if events == [] then Server(0, map[]) else Run(DropLast(events)).Step(Last(events))
  }

  lemma StepCounts(s: Server, e: Event)
    requires s.inUse == |s.Holders()| <= 45
    ensures s.Step(e).inUse == |s.Step(e).Holders()| <= 45
  {
    var s' := s.Step(e);
    if e.r in s'.Holders() && e.r !in s.Holders() {
      assert s'.Holders() == s.Holders() + {e.r};
    } else if e.r !in s'.Holders() && e.r in s.Holders() {
      assert s'.Holders() == s.Holders() - {e.r};
    } else {
      assert s'.Holders() == s.Holders();
    }
  }

  /** In every interleaving `allocated` counts the requests that hold a resource,
      at most 45 of the 50 are ever held, and the health check never fails. */
  lemma {:induction false} AllocatedCountsHolders(events: seq<Event>)
    ensures Run(events).inUse == |Run(events).Holders()|
    ensures 0 <= Run(events).inUse <= 45
    ensures Run(events).Healthy()
  {
    if events != [] {
      AllocatedCountsHolders(DropLast(events));
      StepCounts(Run(DropLast(events)), Last(events));
    }
  }

  /** A request is refused exactly when 45 others hold a resource as it asks. */
  lemma RefusedExactlyWhenFull(events: seq<Event>, r: Request)
    requires r in Run(events).handlers && Run(events).handlers[r].Arrived?
    ensures Run(events + [Advance(r)]).handlers[r].Refused? <==> |Run(events).Holders()| == 45
  {
    AllocatedCountsHolders(events);
    DropAppended(events, Advance(r));
  }

  /** The web server: the shared pool, and where each request stands. */
  class WebServer {
    const pool: Pool
    var handlers: map<Request, Handler>

    constructor ()
      ensures fresh(pool) && View() == Server(0, map[])
    {
      pool := new Pool();
      handlers := map[];
    }

    function View(): Server
      reads this, pool
    {
      Server(pool.inUse, handlers)
    }

    /** The next step of request `r`; the release is deferred past the reply. */
    method Hello(r: Request)
      requires r in handlers
      modifies this, pool
      ensures View() == old(View()).Step(Advance(r))
    {
      match handlers[r]
      case Arrived =>
        var ok := pool.Alloc();
        handlers := handlers[r := if ok then Serving else Refused];
      case Serving =>
        handlers := handlers[r := Replied];
      case Replied =>
        pool.Release();
        handlers := handlers[r := Done];
      case Refused =>
      case Done =>
    }

    method Handle(e: Event)
      modifies this, pool
      ensures View() == old(View()).Step(e)
    {
      if e.Arrive? && e.r !in handlers {
        handlers := handlers[e.r := Arrived];
      } else if e.Advance? && e.r in handlers {
        Hello(e.r);
      }
    }

    /** Whatever happened since the start, the health check answers Ok. */
    method Healthz(ghost events: seq<Event>) returns (ok: bool)
      requires View() == Run(events)
      ensures ok
    {
      AllocatedCountsHolders(events);
      ok := pool.HasResources();
    }
  }

  /** Any interleaving of requests, executed with the pool. */
  method Serve(events: seq<Event>) returns (server: WebServer)
    ensures fresh(server) && fresh(server.pool) && server.View() == Run(events)
    ensures server.pool.inUse == |Run(events).Holders()| <= 45
  {
    server := new WebServer();
    for i := 0 to |events|
      invariant fresh(server) && fresh(server.pool) && server.View() == Run(events[..i])
    {
      assert DropLast(events[..i + 1]) == events[..i];
      server.Handle(events[i]);
    }
    assert events[..|events|] == events;
    AllocatedCountsHolders(events);
  }
}
