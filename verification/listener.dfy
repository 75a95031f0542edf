/**
 * The telemetry listener (telemetryApi/listener.go): a struct owning an HTTP
 * server reference and the queue of received log events. The HTTP library is
 * abstract: `Server` stands for a constructed server object, and the outcome of
 * the library's stop call is a parameter. The logger is a ghost, append-only
 * sequence of entries.
 */
module Listener {
  import opened Wrappers
  import opened Address
  import opened Marker

  /** A raw payload as it would sit in the event queue. */
  type Event = seq<byte>

  /** The log lines the listener emits, without their formatting. */
  datatype LogEntry =
    | StartingOn(address: string)   // Info, when Start resolves its address
    | Dropped(body: seq<byte>)      // Info, when a pushed body carries the drop marker
    | UnexpectedStop                // Error, when the server's serve loop fails
    | ServerClosed                  // Info, when the serve loop returns cleanly
    | ShutdownFailed                // Error, when the library's stop call fails

  /** The observable state of a listener: whether it owns a server, its queue and its log. */
  datatype ListenerView = ListenerView(running: bool, queue: seq<Event>, log: seq<LogEntry>)

  /** The state of a freshly constructed listener. */
  function InitialView(): (v: ListenerView)
    ensures !v.running && v.queue == [] && v.log == []
  {
    ListenerView(false, [], [])
  }

  /** Effect of Start: owns a server whatever the prior state, and logs the address. */
  function StartSpec(v: ListenerView, env: Option<string>): (w: ListenerView)
    ensures w.running && w.queue == v.queue
    ensures |w.log| == |v.log| + 1 && w.log[..|v.log|] == v.log
  {
    v.(running := true, log := v.log + [StartingOn(ListenOnAddress(env))])
  }

  /** Effect of one pushed request with the given body. */
  function HandleSpec(v: ListenerView, body: seq<byte>): (w: ListenerView)
    ensures w.running == v.running && w.queue == v.queue
  {
    if ReportsDrop(body) then v.(log := v.log + [Dropped(body)]) else v
  }

  /** Effect of Shutdown, given whether the library's stop call succeeds. */
  function ShutdownSpec(v: ListenerView, stopSucceeds: bool): (w: ListenerView)
    ensures w.queue == v.queue
    ensures w.running <==> v.running && !stopSucceeds
  {
    if !v.running then v
    else if stopSucceeds then v.(running := false)
    else v.(log := v.log + [ShutdownFailed])
  }

  /** Effect of the serve loop returning: on failure it logs and shuts down, otherwise it logs the close. */
  function ServeReturnedSpec(v: ListenerView, serveFailed: bool, stopSucceeds: bool): (w: ListenerView)
    ensures w.queue == v.queue
    ensures |w.log| > |v.log| && w.log[|v.log|] == (if serveFailed then UnexpectedStop else ServerClosed)
  {
    if serveFailed then ShutdownSpec(v.(log := v.log + [UnexpectedStop]), stopSucceeds)
    else v.(log := v.log + [ServerClosed])
  }

  /** Effect of a series of pushed requests, in arrival order. */
  function HandleAll(v: ListenerView, bodies: seq<seq<byte>>): (w: ListenerView)
    decreases |bodies|
  {
    if bodies == [] then v else HandleAll(HandleSpec(v, bodies[0]), bodies[1..])
  }

  /** How many of the bodies carry the drop marker. */
  function DropCount(bodies: seq<seq<byte>>): (n: nat)
    ensures n <= |bodies|
  {
    if bodies == [] then 0 else (if ReportsDrop(bodies[0]) then 1 else 0) + DropCount(bodies[1..])
  }

  /** A handled request logs exactly one entry when the marker is present and none otherwise. */
  lemma HandleLogsOnlyOnMarker(v: ListenerView, body: seq<byte>)
    ensures ReportsDrop(body) ==> HandleSpec(v, body).log == v.log + [Dropped(body)]
    ensures !ReportsDrop(body) ==> HandleSpec(v, body) == v
  {
  }

  /**
   * Over any series of requests the queue and the server ownership never change,
   * and the log grows by exactly one entry per body carrying the marker.
   */
  lemma {:induction false} HandleAllKeepsQueueAndServer(v: ListenerView, bodies: seq<seq<byte>>)
    ensures HandleAll(v, bodies).queue == v.queue
    ensures HandleAll(v, bodies).running == v.running
    ensures |HandleAll(v, bodies).log| == |v.log| + DropCount(bodies)
    ensures HandleAll(v, bodies).log[..|v.log|] == v.log
    decreases |bodies|
  {
    if bodies != [] {
      var w := HandleSpec(v, bodies[0]);
      HandleAllKeepsQueueAndServer(w, bodies[1..]);
      assert w.log[..|v.log|] == v.log;
      assert HandleAll(w, bodies[1..]).log[..|v.log|] == HandleAll(w, bodies[1..]).log[..|w.log|][..|v.log|];
    }
  }

  /** Requests whose bodies lack the marker leave the listener exactly as it was. */
  lemma {:induction false} QuietRequestsChangeNothing(v: ListenerView, bodies: seq<seq<byte>>)
    requires forall k :: 0 <= k < |bodies| ==> !ReportsDrop(bodies[k])
    ensures HandleAll(v, bodies) == v
    decreases |bodies|
  {
    if bodies != [] {
      assert !ReportsDrop(bodies[0]);
      QuietRequestsChangeNothing(v, bodies[1..]);
    }
  }

  /** Shutdown without a server is a no-op: no state change and no log entry. */
  lemma ShutdownWithoutServerIsNoop(v: ListenerView, stopSucceeds: bool)
    requires !v.running
    ensures ShutdownSpec(v, stopSucceeds) == v
  {
  }

  /** A failed stop keeps the server and logs exactly one error. */
  lemma FailedShutdownRetainsServer(v: ListenerView)
    requires v.running
    ensures ShutdownSpec(v, false) == v.(log := v.log + [ShutdownFailed])
  {
  }

  /** A Shutdown after a successful one is a no-op. */
  lemma ShutdownIsIdempotent(v: ListenerView, stopSucceeds: bool)
    ensures var once := ShutdownSpec(v, true);
      !once.running && once.log == v.log && ShutdownSpec(once, stopSucceeds) == once
  {
  }

  /** A second Start leaves the listener running, as the first did; nothing guards it. */
  lemma RestartKeepsRunning(v: ListenerView, env1: Option<string>, env2: Option<string>)
    ensures StartSpec(StartSpec(v, env1), env2).running
    ensures StartSpec(StartSpec(v, env1), env2).log == v.log + [StartingOn(ListenOnAddress(env1)), StartingOn(ListenOnAddress(env2))]
  {
  }

  /** A serve failure after Start releases the server when the stop succeeds, after logging the failure. */
  lemma ServeFailureReleasesServer(v: ListenerView, env: Option<string>)
    ensures var w := ServeReturnedSpec(StartSpec(v, env), true, true);
      !w.running && w.log == v.log + [StartingOn(ListenOnAddress(env)), UnexpectedStop]
  {
  }

  /** The server object the listener owns while running; it dispatches requests to its listener. */
  class Server {
    const handler: TelemetryApiListener

    constructor (handler: TelemetryApiListener)
      ensures this.handler == handler
    {
      this.handler := handler;
    }
  }

  class TelemetryApiListener {
    var fasthttpServer: Server?
    var logEventsQueue: seq<Event>
    ghost var log: seq<LogEntry>

    ghost function View(): ListenerView
      reads this
    {
      ListenerView(fasthttpServer != null, logEventsQueue, log)
    }

    /** A new listener owns no server and has an empty queue. */
    constructor ()
      ensures View() == InitialView()
      ensures fasthttpServer == null
    {
      fasthttpServer := null;
      logEventsQueue := [];
      log := [];
    }

    /**
     * Resolves the address, installs a new server whose handler is this listener,
     * and returns the endpoint URL. The error result is always absent.
     */
    method Start(env: Option<string>) returns (url: string, err: Option<string>)
      modifies this
      ensures View() == StartSpec(old(View()), env)
      ensures fasthttpServer != null && fresh(fasthttpServer) && fasthttpServer.handler == this
      ensures url == EndpointUrl(ListenOnAddress(env)) && AddressOfUrl(url) == Some(ListenOnAddress(env))
      ensures err == None
    {
      var address := ListenOnAddress(env);
      log := log + [StartingOn(address)];
      fasthttpServer := new Server(this);
      url := "http://" + address + "/";
      UrlRoundTrip(address);
      err := None;
    }

    /** Handles one pushed request: logs the body only when it carries the drop marker. */
    method HttpHandler(body: seq<byte>)
      modifies this`log
      ensures View() == HandleSpec(old(View()), body)
      ensures fasthttpServer == old(fasthttpServer) && logEventsQueue == old(logEventsQueue)
    {
      if ReportsDrop(body) {
        log := log + [Dropped(body)];
      }
    }

    /** Stops the owned server, if any; releases it only when the stop succeeds. */
    method Shutdown(stopSucceeds: bool)
      modifies this
      ensures View() == ShutdownSpec(old(View()), stopSucceeds)
      ensures fasthttpServer == (if old(fasthttpServer) != null && stopSucceeds then null else old(fasthttpServer))
    {
      if fasthttpServer != null {
        if !stopSucceeds {
          log := log + [ShutdownFailed];
        } else {
          fasthttpServer := null;
        }
      }
    }

    /** What the background serve task does when its serve loop returns. */
    method ServeReturned(serveFailed: bool, stopSucceeds: bool)
      modifies this
      ensures View() == ServeReturnedSpec(old(View()), serveFailed, stopSucceeds)
      ensures fasthttpServer == (if serveFailed && stopSucceeds && old(fasthttpServer) != null then null else old(fasthttpServer))
    {
      if serveFailed {
        log := log + [UnexpectedStop];
        Shutdown(stopSucceeds);
      } else {
        log := log + [ServerClosed];
      }
    }
  }

  /** A client's view of one lifetime: start, a quiet push, a drop notice, a failed and a successful stop. */
  method LifecycleExample(env: Option<string>, quiet: seq<byte>, before: seq<byte>)
    requires !ReportsDrop(quiet)
  {
    var listener := new TelemetryApiListener();
    listener.Shutdown(true);
    assert listener.View() == InitialView();
    var url, err := listener.Start(env);
    assert err == None && listener.View().running;
    listener.HttpHandler(quiet);
    assert listener.log == [StartingOn(ListenOnAddress(env))];
    var notice := before + DropMarker;
    MarkerAnywhereIsReported(before, []);
    assert before + DropMarker + [] == notice;
    listener.HttpHandler(notice);
    assert listener.log == [StartingOn(ListenOnAddress(env)), Dropped(notice)];
    listener.Shutdown(false);
    assert listener.View().running;
    listener.Shutdown(true);
    assert !listener.View().running && listener.logEventsQueue == [];
    listener.Shutdown(false);
    assert |listener.log| == 3;
  }
}
