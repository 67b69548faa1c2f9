/**
 * The event bootstrap of events/entry.go: Process builds the table routing Docker event
 * statuses to handlers, starts the event router, then replays every existing container
 * as a synthetic "start" event pushed onto the router's listener.
 *
 * The Docker client, the network manager and the binexec watcher are external; they are
 * identified here by opaque numbers. The fallible setup steps are outcome oracles, and
 * the router's listener channel is the sequence of events pushed onto it.
 */
module Events {
  import opened Common

  /** The `From` of every replayed event, telling it apart from events Docker emitted. */
  const SimulatedEvent := "-simulated-"
  const StartStatus := "start"
  const DieStatus := "die"

  /** A handler of the routing table; the payload identifies the object it wraps. */
  datatype Handler =
    | BinexecWatcher(watcher: nat)
    | StartHandler(client: nat)
    | NetworkManagerHandler(manager: nat)

  datatype APIEvent = APIEvent(id: string, status: string, from: string)

  /** One entry of Docker's container list. */
  datatype APIContainers = APIContainers(id: string, state: string)

  /**
   * The outcomes of the external setup calls: NewDockerClient (the client's identity or an
   * error), NewEventRouter (an error or none) and ListContainers with All: true.
   */
  datatype DockerEnv = DockerEnv(
    client: Result<nat>,
    routerError: Option<Error>,
    listing: Result<seq<APIContainers>>)

  /**
   * The routing table of Process. "start" runs the binexec watcher, then the start handler,
   * then the network manager handler; "die" runs only that same network manager handler.
   */
  function HandlerTable(bw: nat, client: nat, nm: nat): (t: map<string, seq<Handler>>)
    ensures t.Keys == {StartStatus, DieStatus}
    ensures |t[StartStatus]| == 3 && |t[DieStatus]| == 1
    ensures t[StartStatus][0] == BinexecWatcher(bw) && t[StartStatus][1] == StartHandler(client)
    ensures t[DieStatus][0] == t[StartStatus][2] == NetworkManagerHandler(nm)
  {
    var nmHandler := NetworkManagerHandler(nm);
    map[StartStatus := [BinexecWatcher(bw), StartHandler(client), nmHandler],
        DieStatus := [nmHandler]]
  }

  /** The replay of `cs`: one synthetic start event per container, in list order. */
  function SimulatedEvents(cs: seq<APIContainers>): (r: seq<APIEvent>)
    ensures |r| == |cs|
    ensures forall i :: 0 <= i < |cs| ==> r[i] == APIEvent(cs[i].id, StartStatus, SimulatedEvent)
  {
    if cs == [] then []
    else
      var c := cs[|cs| - 1];
      SimulatedEvents(cs[..|cs| - 1]) + [APIEvent(c.id, StartStatus, SimulatedEvent)]
  }

  /** The event router; `listener` holds every event pushed onto its listener channel. */
  class EventRouter {
    const eventBufferSize: int
    const workerPoolSize: int
    const client: nat
    const handlers: map<string, seq<Handler>>
    var started: bool
    var listener: seq<APIEvent>

    constructor (eventBufferSize: int, workerPoolSize: int, client: nat, handlers: map<string, seq<Handler>>)
      ensures this.eventBufferSize == eventBufferSize && this.workerPoolSize == workerPoolSize
      ensures this.client == client && this.handlers == handlers
      ensures !started && listener == []
    {
      this.eventBufferSize := eventBufferSize;
      this.workerPoolSize := workerPoolSize;
      this.client := client;
      this.handlers := handlers;
      started := false;
      listener := [];
    }

    method Start()
      modifies this`started
      ensures started
    {
      started := true;
    }

    /** `router.listener <- event`. */
    method Push(event: APIEvent)
      requires started
      modifies this`listener
      ensures listener == old(listener) + [event]
    {
      listener := listener + [event];
    }
  }

  class DockerEventsProcessor {
    const poolSize: int
    const nm: nat
    const bw: nat

    constructor (poolSize: int, nm: nat, bw: nat)
      ensures this.poolSize == poolSize && this.nm == nm && this.bw == bw
    {
      this.poolSize := poolSize;
      this.nm := nm;
      this.bw := bw;
    }

    /**
     * Sets up event processing. A client error is returned before any router exists; a
     * router error is returned before anything is started; a listing error is returned
     * after the router started, with nothing replayed; otherwise every listed container
     * is replayed once, in order, after the router started.
     */
    method Process(env: DockerEnv) returns (err: Option<Error>, router: EventRouter?)
      ensures env.client.Err? ==> err == Some(env.client.error) && router == null
      ensures env.client.Ok? && env.routerError.Some? ==> err == env.routerError && router == null
      ensures env.client.Ok? && env.routerError.None? ==>
                router != null && fresh(router) && router.started &&
                router.handlers == HandlerTable(bw, env.client.value, nm) &&
                router.client == env.client.value &&
                router.eventBufferSize == poolSize && router.workerPoolSize == poolSize
      ensures env.client.Ok? && env.routerError.None? && env.listing.Err? ==>
                router != null && err == Some(env.listing.error) && router.listener == []
      ensures env.client.Ok? && env.routerError.None? && env.listing.Ok? ==>
                router != null && err == None && router.listener == SimulatedEvents(env.listing.value)
    {
      if env.client.Err? {
        return Some(env.client.error), null;
      }
      var dockerClient := env.client.value;

      var handlers := HandlerTable(bw, dockerClient, nm);

      if env.routerError.Some? {
        return env.routerError, null;
      }
      router := new EventRouter(poolSize, poolSize, dockerClient, handlers);
      router.Start();

      if env.listing.Err? {
        return Some(env.listing.error), router;
      }
      var containers := env.listing.value;

      for i := 0 to |containers|
        invariant router.started
        invariant router.listener == SimulatedEvents(containers[..i])
      {
        var c := containers[i];
        assert containers[..i + 1][..i] == containers[..i];
        router.Push(APIEvent(c.id, StartStatus, SimulatedEvent));
      }
      assert containers[..|containers|] == containers;
      return None, router;
    }
  }

  /** Watch: builds a processor and runs Process; it fails exactly when a setup step fails. */
  method Watch(poolSize: int, nm: nat, bw: nat, env: DockerEnv) returns (err: Option<Error>)
    ensures err.Some? <==> env.client.Err? || env.routerError.Some? || env.listing.Err?
  {
    var dep := new DockerEventsProcessor(poolSize, nm, bw);
    var router;
    err, router := dep.Process(env);
  }

  /** Replay of [c1 (exited), c2 (running)]: two synthetic start events, c1 first. */
  lemma ReplayTwoContainers()
    ensures SimulatedEvents([APIContainers("c1", "exited"), APIContainers("c2", "running")]) ==
            [APIEvent("c1", "start", "-simulated-"), APIEvent("c2", "start", "-simulated-")]
  {
  }
}
