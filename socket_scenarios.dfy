/**
 * Client code driving the connection manager through typical usage: queue
 * then flush, no endpoint, a throwing provider, retry exhaustion, close-code
 * retry and the heartbeat. Each method builds its own manager and proves,
 * from the contracts of module Socket alone, what the application observes.
 */
module SocketScenarios {
  import opened Wrappers
  import opened SocketCore
  import opened Socket

  /** Two messages sent while the transport is still connecting are queued, not sent. */
  method QueueTwo(config: Config) returns (g: GSocket)
    requires !config.autoconnect && config.endpoint.Some? && IsValidEndpoint(config.endpoint.value)
    ensures fresh(g) && g.service != null && fresh(g.service)
    ensures g.Valid() && g.cfg == config && g.state == Connecting
    ensures g.messages == [Text("a"), Text("b")]
    ensures g.service.readyState == Code(Connecting) && g.service.outbox == []
  {
    g := Connected(config);
    g.Send(Text("a"), true, 10);
    g.Send(Text("b"), true, 11);
  }

  /**
   * Two messages sent while the transport is still connecting are queued;
   * when it opens they go out in send order and the queue is empty.
   */
  method QueueThenFlush() returns (wire: seq<Wire>, queue: seq<Payload>)
    ensures wire == [Raw("a"), Raw("b")] && queue == []
  {
    var config := Defaults().(endpoint := Some("ws://example.org"), autoconnect := false);
    var g := QueueTwo(config);
    assert SerializeAll(g.messages, 12) == [Raw("a"), Raw("b")];
    assert HandshakeFrames(config, g.state, 12) == [];
    g.service.readyState := Code(Open);
    g.OnConnected(12);
    wire, queue := g.service.outbox, g.messages;
  }

  /** A message sent with queueing disabled is never stored. */
  method UnstoredSendIsDropped() returns (queue: seq<Payload>, wire: seq<Wire>)
    ensures queue == [] && wire == []
  {
    var g := Connected(Defaults().(endpoint := Some("wss://example.org"), autoconnect := false));
    g.Send(Text("ping"), false, 1);
    queue, wire := g.messages, g.service.outbox;
  }

  /** With no endpoint, `connect` records one error, stays CLOSED and arms nothing. */
  method NoEndpoint() returns (state: State, errors: seq<Fault>, armed: bool)
    ensures state == Closed && errors == [MissingEndpoint] && !armed
  {
    var g := new GSocket(Defaults().(autoconnect := false), false);
    var accepted := g.Connect(None, false);
    state, errors, armed := g.state, g.errors, g.timers != map[];
  }

  /**
   * A throwing provider after a valid endpoint: one error, CLOSED, the
   * attempt not counted.
   */
  method ProviderThrows() returns (state: State, errors: seq<Fault>, tries: nat)
    ensures state == Closed && errors == [ProviderFailure] && tries == 0
  {
    var g := new GSocket(Defaults().(endpoint := Some("ws://example.org"), autoconnect := false), false);
    var accepted := g.Connect(None, true);
    state, errors, tries := g.state, g.errors, g.tries;
  }

  /**
   * The provider-failure case as the repository's test sets it up: the
   * defaults connect at construction, and no endpoint is configured, so the
   * constructor already records an error and the explicit `connect` records
   * a second one; the state is CLOSED, not ERRORED.
   */
  method ProviderTestAsConfigured() returns (state: State, errors: seq<Fault>)
    ensures state == Closed && errors == [MissingEndpoint, MissingEndpoint]
  {
    var g := new GSocket(Defaults(), true);
    var accepted := g.Connect(None, true);
    state, errors := g.state, g.errors;
  }

  /**
   * Against a server that never answers, with `reconnectAfterTimeout` on,
   * every attempt times out and schedules the next one until the attempt
   * count reaches `maxtries`: exactly `maxtries` attempts are made, the
   * retries wait 2^k - 1 seconds (capped) after attempt k, and afterwards
   * nothing is armed. The closed transport is taken to report nothing more;
   * a browser WebSocket closed while connecting also reports an error and a
   * 1006 close, which log one error per attempt and end in CLOSED.
   */
  method RetryUntilExhausted(g: GSocket) returns (attempts: nat, delays: seq<int>)
    requires g.Valid() && g.state != Connecting && g.tries == 0 && g.cfg.maxtries >= 1
    requires g.cfg.reconnectAfterTimeout && g.endpoint.Some? && IsValidEndpoint(g.endpoint.value)
    modifies g, g.service
    ensures g.Valid() && g.state == TimedOut && g.service == null
    ensures attempts == g.tries == g.cfg.maxtries
    ensures RetrySlot !in g.timers && TimeoutSlot in g.timers
    ensures |delays| == g.cfg.maxtries - 1
    ensures forall k :: 0 <= k < |delays| ==> delays[k] == RetryTime(k + 1, g.cfg.maxRetryTime)
  {
    attempts, delays := 0, [];
    var armed := true;
    while armed
      invariant g.Valid() && g.state != Connecting && g.endpoint == old(g.endpoint)
      invariant g.service == null || g.service == old(g.service) || fresh(g.service)
      invariant g.tries == attempts
      invariant armed ==> attempts < g.cfg.maxtries && |delays| == attempts
      invariant !armed ==> attempts == g.cfg.maxtries && |delays| == attempts - 1
      invariant !armed ==> g.state == TimedOut && g.service == null && RetrySlot !in g.timers && TimeoutSlot in g.timers
      invariant forall k :: 0 <= k < |delays| ==> delays[k] == RetryTime(k + 1, g.cfg.maxRetryTime)
      decreases g.cfg.maxtries - attempts
    {
      var accepted := g.Connect(None, false);
      attempts := attempts + 1;
      var retried := g.HandleTimeout();
      armed := RetrySlot in g.timers;
      if armed {
        delays := delays + [g.timers[RetrySlot].delay];
      }
    }
  }

  /**
   * With `maxtries` 3, the timed-out attempts schedule retries after 1 s and
   * then 3 s; after the third attempt a further retry call returns None and
   * arms no timer.
   */
  method RetryExhaustion() returns (attempts: nat, delays: seq<int>, last: Option<nat>, retryArmed: bool)
    ensures attempts == 3 && delays == [1000, 3000]
    ensures last == None && !retryArmed
  {
    var g := new GSocket(Defaults().(endpoint := Some("wss://example.org"), autoconnect := false, maxtries := 3), false);
    attempts, delays := RetryUntilExhausted(g);
    last := g.RetryConnection();
    retryArmed := RetrySlot in g.timers;
  }

  /** A manager for `config` after a successful `connect`, its transport still connecting. */
  method Connected(config: Config) returns (g: GSocket)
    requires !config.autoconnect && config.endpoint.Some? && IsValidEndpoint(config.endpoint.value)
    ensures fresh(g) && g.service != null && fresh(g.service)
    ensures g.Valid() && g.cfg == config && g.state == Connecting && g.tries == 1 && g.messages == []
    ensures g.service.readyState == Code(Connecting) && g.service.outbox == []
  {
    g := new GSocket(config, false);
    var ok := g.Connect(None, false);
  }

  /** A manager for `config`, connected and told at time `now` that its transport opened. */
  method Opened(config: Config, now: int) returns (g: GSocket)
    requires !config.autoconnect && config.endpoint.Some? && IsValidEndpoint(config.endpoint.value)
    ensures fresh(g) && g.service != null && fresh(g.service)
    ensures g.Valid() && g.cfg == config && g.state == Open && g.tries == 0 && g.messages == []
    ensures g.service.readyState == Code(Open)
    ensures g.service.outbox == HandshakeFrames(config, Connecting, now)
    ensures g.timers.Keys == if config.verbosity >= 2 then {HeartbeatSlot} else {}
  {
    g := Connected(config);
    g.service.readyState := Code(Open);
    g.OnConnected(now);
  }

  /**
   * An open connection closed with code 1006 (listed in the default
   * `reconnectOnClose`) schedules a retry at once, since the attempt count
   * was reset on opening; code 1000 does not.
   */
  method CloseCodeRetry() returns (stateAfter1006: State, delay: int, stateAfter1000: State, armedAfter1000: bool)
    ensures stateAfter1006 == Reconnecting && delay == 0
    ensures stateAfter1000 == Closed && !armedAfter1000
  {
    var config := Defaults().(endpoint := Some("ws://example.org"), autoconnect := false);
    var g := Opened(config, 0);
    g.OnClosed(Some(1006));
    stateAfter1006, delay := g.state, g.timers[RetrySlot].delay;

    var h := Opened(config, 0);
    h.OnClosed(Some(1000));
    stateAfter1000, armedAfter1000 := h.state, RetrySlot in h.timers;
  }

  /**
   * At verbosity 2 opening sends the handshake and arms the heartbeat
   * interval at `keepalive`; each later firing while OPEN sends one
   * heartbeat, stamped, and keeps the same interval.
   */
  method HeartbeatProtocol() returns (wire: seq<Wire>, interval: Timer, first: HeartbeatResult)
    ensures |wire| == 3
    ensures wire[0] == Json(map["ping" := Str("ping"), "timestamp" := Num(0)])
    ensures wire[1] == Json(map["beat" := Num(30), "timestamp" := Num(30)])
    ensures wire[2] == Json(map["beat" := Num(60), "timestamp" := Num(60)])
    ensures interval.delay == 30000 && interval.repeating && first == Beat
  {
    var g := Opened(Defaults().(endpoint := Some("ws://example.org"), autoconnect := false, verbosity := 2), 0);
    var armed := g.timers[HeartbeatSlot];
    first := g.SendHeartbeat(30);
    var again := g.SendHeartbeat(60);
    wire, interval := g.service.outbox, g.timers[HeartbeatSlot];
    assert interval == armed;
  }

  /** Below verbosity 2 the heartbeat is disabled; at verbosity 0 no handshake is sent either. */
  method QuietConnection() returns (wire: seq<Wire>, heartbeat: HeartbeatResult)
    ensures wire == [] && heartbeat == Disabled
  {
    var g := Opened(Defaults().(endpoint := Some("ws://example.org"), autoconnect := false), 0);
    heartbeat := g.SendHeartbeat(1);
    wire := g.service.outbox;
  }
}
