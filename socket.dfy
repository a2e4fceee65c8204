/**
 * The gsocket connection manager: one transport at a time, a queue of
 * messages waiting for an open connection, an error log, three timer slots
 * and the log of events emitted to the application.
 */
module Socket {
  import opened Wrappers
  import opened SocketCore

  /**
   * The transport capability: a readyState the network advances, `send`
   * and `close`. `outbox` records every frame handed to `send`, in order.
   */
  class Transport {
    const url: string
    var readyState: int
    var outbox: seq<Wire>
    var closeCalls: nat

    constructor (url: string)
      ensures this.url == url && readyState == Code(Connecting)
      ensures outbox == [] && closeCalls == 0
    {
      this.url := url;
      readyState := Code(Connecting);
      outbox := [];
      closeCalls := 0;
    }

    method Send(w: Wire)
      modifies this`outbox
      ensures outbox == old(outbox) + [w]
    {
      outbox := outbox + [w];
    }

    /** Closing a connecting or open transport moves it to CLOSING. */
    method Close()
      modifies this`readyState, this`closeCalls
      ensures closeCalls == old(closeCalls) + 1
      ensures readyState ==
        if old(readyState) == Code(Connecting) || old(readyState) == Code(Open)
        then Code(Closing) else old(readyState)
    {
      closeCalls := closeCalls + 1;
      if readyState == Code(Connecting) || readyState == Code(Open) {
        readyState := Code(Closing);
      }
    }
  }

  /** The three timer roles, in the order the source clears them. */
  datatype Slot = RetrySlot | TimeoutSlot | HeartbeatSlot

  const TimeoutIds: seq<Slot> := [RetrySlot, TimeoutSlot, HeartbeatSlot]

  /** What an armed timer calls when it fires. */
  datatype Callback = CallHandleTimeout | CallConnect | CallSendHeartbeat

  /** An armed timer: its handle, its callback, its delay and whether it repeats. */
  datatype Timer = Timer(handle: nat, callback: Callback, delay: int, repeating: bool)

  /** The events emitted to the application. */
  datatype Emitted = ConnectedEvent | ClosingEvent(code: Option<int>) | ErrorEvent(fault: Fault)

  /** What `sendHeartbeat` returned. */
  datatype HeartbeatResult = Disabled | Armed(handle: nat) | NotOpen(state: State) | Beat

  /** The frames a transport in `readyState` actually carries out of `ws`. */
  function Delivered(readyState: int, ws: seq<Wire>): seq<Wire> {
    if readyState == Code(Open) then ws else []
  }

  lemma DeliveredAppend(readyState: int, a: seq<Wire>, b: seq<Wire>)
    ensures Delivered(readyState, a) + Delivered(readyState, b) == Delivered(readyState, a + b)
  {
  }

  /** The timer that a successful `connect` arms. */
  function ConnectTimer(cfg: Config, handle: nat): Timer {
    Timer(handle, CallHandleTimeout, cfg.timeout, false)
  }

  /** The timer that `retryConnection` arms. */
  function RetryTimer(cfg: Config, tries: nat, handle: nat): Timer {
    Timer(handle, CallConnect, RetryTime(tries, cfg.maxRetryTime), false)
  }

  /** The interval that the first `sendHeartbeat` arms. */
  function HeartbeatTimer(cfg: Config, handle: nat): Timer {
    Timer(handle, CallSendHeartbeat, cfg.keepalive, true)
  }

  /** The slot table after `retryConnection` has armed a retry. */
  function RetriedTimers(timers: map<Slot, Timer>, cfg: Config, tries: nat, handle: nat): map<Slot, Timer> {
    (timers - {TimeoutSlot})[RetrySlot := RetryTimer(cfg, tries, handle)]
  }

  /** The heartbeat frame sent at time `now`. */
  function HeartbeatPayload(cfg: Config, now: int): Payload {
    Record(cfg.heartbeat["beat" := Num(now)])
  }

  /** The handshake frames `onConnected` sends, given the state it starts from. */
  function HandshakeFrames(cfg: Config, state: State, now: int): seq<Wire> {
    if cfg.verbosity >= 1 && state != Open then [Serialize(Record(cfg.handshake), now)] else []
  }

  class GSocket {
    const cfg: Config
    var initialized: bool
    var endpoint: Option<string>
    var state: State
    var tries: nat
    var messages: seq<Payload>
    var errors: seq<Fault>
    var service: Transport?
    var timers: map<Slot, Timer>
    var nextHandle: nat
    var emitted: seq<Emitted>

    /** A timer in `slot` carries a handle already handed out. */
    ghost predicate Issued(slot: Slot)
      reads this`timers, this`nextHandle
    {
      slot in timers ==> 0 < timers[slot].handle < nextHandle
    }

    /** Two armed slots never share a handle. */
    ghost predicate Apart(a: Slot, b: Slot)
      reads this`timers
    {
      a in timers && b in timers ==> timers[a].handle != timers[b].handle
    }

    /**
     * The invariant the manager keeps: an open manager has a transport, timer
     * handles are positive and distinct, and each slot holds the timer its
     * role calls for. An armed retry was computed from the current attempt
     * count, which is still below the limit; an armed connect timeout
     * follows at least one counted attempt; a heartbeat is only armed at
     * verbosity 2.
     */
    ghost predicate Valid()
      reads this`state, this`service, this`tries, this`timers, this`nextHandle
    {
      && (state == Open ==> service != null)
      && 0 < nextHandle
      && Issued(RetrySlot) && Issued(TimeoutSlot) && Issued(HeartbeatSlot)
      && Apart(RetrySlot, TimeoutSlot) && Apart(RetrySlot, HeartbeatSlot) && Apart(TimeoutSlot, HeartbeatSlot)
      && (TimeoutSlot in timers ==> timers[TimeoutSlot] == ConnectTimer(cfg, timers[TimeoutSlot].handle) && tries >= 1)
      && (RetrySlot in timers ==>
            timers[RetrySlot] == RetryTimer(cfg, tries, timers[RetrySlot].handle) && tries < cfg.maxtries)
      && (HeartbeatSlot in timers ==>
            timers[HeartbeatSlot] == HeartbeatTimer(cfg, timers[HeartbeatSlot].handle) && cfg.verbosity >= 2)
    }

    /** Builds a manager and runs `init` once. */
    constructor (config: Config, providerThrows: bool)
      ensures Valid() && initialized && cfg == config
      ensures endpoint == config.endpoint && messages == []
      ensures !config.autoconnect ==>
        state == Closed && tries == 0 && errors == [] && timers == map[] && service == null && emitted == []
      ensures config.autoconnect && ConnectFault(config.endpoint, providerThrows).Some? ==>
        var f := ConnectFault(config.endpoint, providerThrows).value;
        state == Closed && tries == 0 && errors == [f] && timers == map[] && service == null
        && emitted == [ErrorEvent(f)]
      ensures config.autoconnect && ConnectFault(config.endpoint, providerThrows).None? ==>
        state == Connecting && tries == 1 && errors == [] && emitted == []
        && timers == map[TimeoutSlot := ConnectTimer(config, 1)]
        && service != null && fresh(service) && service.url == config.endpoint.value
        && service.readyState == Code(Connecting) && service.outbox == []
    {
      cfg := config;
      initialized := false;
      endpoint := config.endpoint;
      state := Closed;
      tries := 0;
      messages := [];
      errors := [];
      service := null;
      timers := map[];
      nextHandle := 1;
      emitted := [];
      new;
      Init(providerThrows);
    }

    /**
     * Resets the manager and connects if `autoconnect` is set; only the first
     * call does anything.
     */
    method Init(providerThrows: bool)
      requires Valid()
      modifies this
      ensures Valid()
      ensures old(initialized) ==> unchanged(this)
      ensures !old(initialized) ==> initialized && messages == [] && endpoint == old(endpoint)
      ensures !old(initialized) && !cfg.autoconnect ==>
        state == Closed && tries == 0 && errors == [] && timers == map[]
        && service == old(service) && emitted == old(emitted)
      ensures !old(initialized) && cfg.autoconnect && ConnectFault(endpoint, providerThrows).Some? ==>
        var f := ConnectFault(endpoint, providerThrows).value;
        state == Closed && tries == 0 && errors == [f] && timers == map[]
        && service == old(service) && emitted == old(emitted) + [ErrorEvent(f)]
      ensures !old(initialized) && cfg.autoconnect && ConnectFault(endpoint, providerThrows).None? ==>
        state == Connecting && tries == 1 && errors == [] && emitted == old(emitted)
        && timers == map[TimeoutSlot := ConnectTimer(cfg, old(nextHandle))]
        && service != null && fresh(service) && service.url == endpoint.value
        && service.readyState == Code(Connecting) && service.outbox == []
    {
      if initialized {
        return;
      }
      initialized := true;
      Reset(None);
      if cfg.autoconnect {
        var _ := Connect(None, providerThrows);
      }
    }

    /**
     * Empties the queue and the error log, zeroes the attempt count, clears
     * every timer and sets the state to `s` when `s` is truthy: state code 0
     * (CONNECTING) is falsy, so `Reset(Some(Connecting))` gives CLOSED.
     */
    method Reset(s: Option<State>)
      requires Valid()
      requires s == Some(Open) ==> service != null
      modifies this`messages, this`errors, this`tries, this`state, this`timers
      ensures Valid()
      ensures messages == [] && errors == [] && tries == 0 && timers == map[]
      ensures state == if s.Some? && Code(s.value) != 0 then s.value else Closed
    {
      messages := [];
      errors := [];
      tries := 0;
      state := if s.Some? && Code(s.value) != 0 then s.value else Closed;
      ClearIds();
    }

    /**
     * Starts a connection attempt. While CONNECTING it refuses and changes
     * nothing. Otherwise an endpoint argument replaces the stored one; then
     * either the attempt fails (no endpoint, no WebSocket scheme, or the
     * provider throws) and is handled as an error, or a fresh transport
     * replaces the old one, the attempt is counted, every timer is cleared
     * and only the connect timeout is armed.
     */
    method Connect(arg: Option<string>, providerThrows: bool) returns (accepted: bool)
      requires Valid()
      modifies this`endpoint, this`errors, this`state, this`emitted, this`service, this`tries,
               this`timers, this`nextHandle
      ensures Valid()
      ensures accepted <==> old(state) != Connecting
      ensures !accepted ==> unchanged(this)
      ensures accepted ==> endpoint == if arg.Some? && arg.value != "" then arg else old(endpoint)
      ensures accepted && ConnectFault(endpoint, providerThrows).Some? ==>
        var f := ConnectFault(endpoint, providerThrows).value;
        && errors == old(errors) + [f] && state == Closed && emitted == old(emitted) + [ErrorEvent(f)]
        && tries == old(tries) && timers == old(timers) && service == old(service)
        && nextHandle == old(nextHandle)
      ensures accepted && ConnectFault(endpoint, providerThrows).None? ==>
        && service != null && fresh(service) && service.url == endpoint.value
        && service.readyState == Code(Connecting) && service.outbox == [] && service.closeCalls == 0
        && tries == old(tries) + 1 && state == Connecting
        && timers == map[TimeoutSlot := ConnectTimer(cfg, old(nextHandle))]
        && nextHandle == old(nextHandle) + 1
        && errors == old(errors) && emitted == old(emitted)
    {
      if state == Connecting {
        return false;
      }
      if arg.Some? && arg.value != "" {
        endpoint := arg;
      }
      Attempt(providerThrows);
      return true;
    }

    /** The attempt `connect` makes once it has accepted: fail as an error, or start a transport. */
    method Attempt(providerThrows: bool)
      requires Valid()
      modifies this`errors, this`state, this`emitted, this`service, this`tries, this`timers, this`nextHandle
      ensures Valid()
      ensures ConnectFault(endpoint, providerThrows).Some? ==>
        var f := ConnectFault(endpoint, providerThrows).value;
        && errors == old(errors) + [f] && state == Closed && emitted == old(emitted) + [ErrorEvent(f)]
        && tries == old(tries) && timers == old(timers) && service == old(service)
        && nextHandle == old(nextHandle)
      ensures ConnectFault(endpoint, providerThrows).None? ==>
        && service != null && fresh(service) && service.url == endpoint.value
        && service.readyState == Code(Connecting) && service.outbox == [] && service.closeCalls == 0
        && tries == old(tries) + 1 && state == Connecting
        && timers == map[TimeoutSlot := ConnectTimer(cfg, old(nextHandle))]
        && nextHandle == old(nextHandle) + 1
        && errors == old(errors) && emitted == old(emitted)
    {
      var fault := ConnectFault(endpoint, providerThrows);
      if fault.Some? {
        OnError(fault.value);
      } else {
        StartAttempt();
      }
    }

    /**
     * The part of `connect` after a valid endpoint and a transport: the new
     * transport replaces the old one, the attempt is counted, every timer is
     * cleared and the connect timeout is armed.
     */
    method StartAttempt()
      requires Valid() && endpoint.Some?
      modifies this`service, this`tries, this`timers, this`state, this`nextHandle
      ensures Valid()
      ensures service != null && fresh(service) && service.url == endpoint.value
      ensures service.readyState == Code(Connecting) && service.outbox == [] && service.closeCalls == 0
      ensures tries == old(tries) + 1 && state == Connecting
      ensures timers == map[TimeoutSlot := ConnectTimer(cfg, old(nextHandle))]
      ensures nextHandle == old(nextHandle) + 1
    {
      service := new Transport(endpoint.value);
      tries := tries + 1;
      ClearIds();
      state := Connecting;
      var t := SetTimeout(CallHandleTimeout, cfg.timeout);
      timers := timers[TimeoutSlot := t];
    }

    /**
     * Closes the transport if there is one and resets to CLOSED. The
     * transport reference itself is kept.
     */
    method Disconnect()
      requires Valid()
      modifies this, service
      ensures Valid()
      ensures service == old(service)
      ensures service != null ==> service.closeCalls == old(service.closeCalls) + 1
      ensures service != null ==> service.outbox == old(service.outbox)
      ensures service != null ==>
        (service.readyState ==
          if old(service.readyState) == Code(Connecting) || old(service.readyState) == Code(Open)
          then Code(Closing) else old(service.readyState))
      ensures state == Closed && messages == [] && errors == [] && tries == 0 && timers == map[]
      ensures emitted == old(emitted) && endpoint == old(endpoint) && initialized == old(initialized)
    {
      if service != null {
        service.Close();
      }
      Reset(None);
    }

    /** Empties one timer slot, cancelling what it held. */
    method ClearTimeInterval(slot: Slot)
      modifies this`timers
      ensures timers == old(timers) - {slot}
    {
      timers := timers - {slot};
    }

    /** Empties all three timer slots. */
    method ClearIds()
      modifies this`timers
      ensures timers == map[]
    {
      for i := 0 to |TimeoutIds|
        invariant forall k :: 0 <= k < i ==> TimeoutIds[k] !in timers
      {
        ClearTimeInterval(TimeoutIds[i]);
      }
      assert forall s :: s !in timers by {
        forall s ensures s !in timers {
          assert s == TimeoutIds[0] || s == TimeoutIds[1] || s == TimeoutIds[2];
        }
      }
    }

    /** Schedules a one-shot timer and returns it with a fresh handle. */
    method SetTimeout(callback: Callback, delay: int) returns (t: Timer)
      modifies this`nextHandle
      ensures t == Timer(old(nextHandle), callback, delay, false)
      ensures nextHandle == old(nextHandle) + 1
    {
      t := Timer(nextHandle, callback, delay, false);
      nextHandle := nextHandle + 1;
    }

    /** Schedules a repeating timer and returns it with a fresh handle. */
    method SetInterval(callback: Callback, delay: int) returns (t: Timer)
      modifies this`nextHandle
      ensures t == Timer(old(nextHandle), callback, delay, true)
      ensures nextHandle == old(nextHandle) + 1
    {
      t := Timer(nextHandle, callback, delay, true);
      nextHandle := nextHandle + 1;
    }

    /**
     * The connect timeout fired: close and drop the transport, enter
     * TIMEDOUT, and retry unless `reconnectAfterTimeout` is false.
     */
    method HandleTimeout() returns (retried: bool)
      requires Valid()
      modifies this, service
      ensures Valid()
      ensures service == null
      ensures old(service) != null ==> old(service).closeCalls == old(service.closeCalls) + 1
      ensures old(service) != null ==> old(service).outbox == old(service.outbox)
      ensures old(service) != null ==>
        (old(service).readyState ==
          if old(service.readyState) == Code(Connecting) || old(service.readyState) == Code(Open)
          then Code(Closing) else old(service.readyState))
      ensures retried == cfg.reconnectAfterTimeout
      ensures tries == old(tries) && messages == old(messages) && errors == old(errors)
      ensures emitted == old(emitted) && endpoint == old(endpoint) && initialized == old(initialized)
      ensures !retried || old(tries) >= cfg.maxtries ==>
        state == TimedOut && nextHandle == old(nextHandle)
        && timers == if retried then old(timers) - {RetrySlot} else old(timers)
      ensures retried && old(tries) < cfg.maxtries ==>
        state == Reconnecting && nextHandle == old(nextHandle) + 1
        && timers == RetriedTimers(old(timers), cfg, tries, old(nextHandle))
    {
      if service != null {
        service.Close();
      }
      service := null;
      state := TimedOut;
      if !cfg.reconnectAfterTimeout {
        return false;
      }
      var _ := RetryConnection();
      return true;
    }

    /**
     * Queues or sends one payload. When the transport is not OPEN nothing is
     * sent and the payload is queued unless `store` is false; when it is OPEN
     * exactly one frame goes out and the queue is untouched.
     */
    method Send(m: Payload, store: bool, now: int)
      requires Valid() && service != null
      modifies this`messages, service`outbox
      ensures Valid()
      ensures service.outbox == old(service.outbox) + Delivered(service.readyState, [Serialize(m, now)])
      ensures messages ==
        if service.readyState != Code(Open) && store then old(messages) + [m] else old(messages)
    {
      if service.readyState != Code(Open) {
        if store {
          messages := messages + [m];
        }
        return;
      }
      service.Send(Serialize(m, now));
    }

    /**
     * The transport opened: send the handshake unless already OPEN, reset to
     * OPEN keeping a snapshot of the queue, arm the heartbeat, emit
     * "connected" and send the snapshot in order.
     */
    method OnConnected(now: int)
      requires Valid() && service != null
      modifies this`messages, this`errors, this`tries, this`state, this`timers, this`nextHandle,
               this`emitted, service
      ensures Valid()
      ensures service.readyState == old(service.readyState) && service.closeCalls == old(service.closeCalls)
      ensures state == Open && tries == 0 && errors == []
      ensures emitted == old(emitted) + [ConnectedEvent]
      ensures timers == if cfg.verbosity >= 2 then map[HeartbeatSlot := HeartbeatTimer(cfg, old(nextHandle))] else map[]
      ensures service.outbox == old(service.outbox) +
        Delivered(service.readyState, HandshakeFrames(cfg, old(state), now) + SerializeAll(old(messages), now))
      ensures messages == if service.readyState == Code(Open) then [] else old(messages)
    {
      Greet(now);
      Reopen(now);
      DeliveredAppend(service.readyState, HandshakeFrames(cfg, old(state), now), SerializeAll(old(messages), now));
    }

    /** The first step of `onConnected`: the handshake, unless already OPEN. */
    method Greet(now: int)
      requires Valid() && service != null
      modifies this`messages, service
      ensures Valid()
      ensures service.readyState == old(service.readyState) && service.closeCalls == old(service.closeCalls)
      ensures messages == old(messages)
      ensures service.outbox == old(service.outbox) + Delivered(service.readyState, HandshakeFrames(cfg, state, now))
    {
      if state != Open {
        var _ := SendHandshake(now);
      }
    }

    /**
     * The part of `onConnected` after the handshake: snapshot the queue,
     * reset to OPEN, arm the heartbeat, emit "connected", send the snapshot.
     */
    method Reopen(now: int)
      requires Valid() && service != null
      modifies this`messages, this`errors, this`tries, this`state, this`timers, this`nextHandle,
               this`emitted, service
      ensures Valid()
      ensures service.readyState == old(service.readyState) && service.closeCalls == old(service.closeCalls)
      ensures state == Open && tries == 0 && errors == []
      ensures emitted == old(emitted) + [ConnectedEvent]
      ensures timers == if cfg.verbosity >= 2 then map[HeartbeatSlot := HeartbeatTimer(cfg, old(nextHandle))] else map[]
      ensures service.outbox == old(service.outbox) + Delivered(service.readyState, SerializeAll(old(messages), now))
      ensures messages == if service.readyState == Code(Open) then [] else old(messages)
    {
      var queued := messages;
      Reset(Some(Open));
      var beat := SendHeartbeat(now);
      emitted := emitted + [ConnectedEvent];
      Flush(queued, now);
    }

    /** Sends each queued payload in turn, re-queueing them if the transport is not OPEN. */
    method Flush(queued: seq<Payload>, now: int)
      requires Valid() && service != null
      requires messages == []
      modifies this`messages, service`outbox
      ensures Valid()
      ensures service.outbox == old(service.outbox) + Delivered(service.readyState, SerializeAll(queued, now))
      ensures messages == if service.readyState == Code(Open) then [] else queued
    {
      var open := service.readyState == Code(Open);
      for i := 0 to |queued|
        invariant Valid() && service.readyState == old(service.readyState)
        invariant open ==> service.outbox == old(service.outbox) + SerializeAll(queued[..i], now) && messages == []
        invariant !open ==> service.outbox == old(service.outbox) && messages == queued[..i]
      {
        SerializeAllSnoc(queued, i, now);
        Send(queued[i], true, now);
      }
      assert queued[..|queued|] == queued;
    }

    /**
     * The transport closed: enter CLOSED, emit "closing", and retry when the
     * close code is one of `reconnectOnClose`.
     */
    method OnClosed(code: Option<int>)
      requires Valid()
      modifies this`state, this`timers, this`nextHandle, this`emitted
      ensures Valid()
      ensures emitted == old(emitted) + [ClosingEvent(code)]
      ensures var retry := code.Some? && code.value in cfg.reconnectOnClose;
        && (!retry ==> state == Closed && timers == old(timers) && nextHandle == old(nextHandle))
        && (retry && tries >= cfg.maxtries ==>
              state == Closed && timers == old(timers) - {RetrySlot} && nextHandle == old(nextHandle))
        && (retry && tries < cfg.maxtries ==>
              state == Reconnecting && timers == RetriedTimers(old(timers), cfg, tries, old(nextHandle))
              && nextHandle == old(nextHandle) + 1)
    {
      state := Closed;
      emitted := emitted + [ClosingEvent(code)];
      if code.Some? && code.value in cfg.reconnectOnClose {
        var _ := RetryConnection();
      }
    }

    /**
     * The transport reported an error: log it, enter CLOSED and emit
     * "error". No retry is attempted here.
     */
    method OnError(e: Fault)
      requires Valid()
      modifies this`errors, this`state, this`emitted
      ensures Valid()
      ensures errors == old(errors) + [e] && state == Closed && emitted == old(emitted) + [ErrorEvent(e)]
    {
      errors := errors + [e];
      state := Closed;
      emitted := emitted + [ErrorEvent(e)];
    }

    /**
     * Schedules the next attempt. With the attempts exhausted it only clears
     * the retry slot and returns None; otherwise it enters RECONNECTING,
     * clears the connect timeout and arms a retry after the backoff delay.
     */
    method RetryConnection() returns (retryId: Option<nat>)
      requires Valid()
      modifies this`state, this`timers, this`nextHandle
      ensures Valid()
      ensures tries >= cfg.maxtries ==>
        retryId == None && state == old(state) && timers == old(timers) - {RetrySlot}
        && nextHandle == old(nextHandle)
      ensures tries < cfg.maxtries ==>
        retryId == Some(old(nextHandle)) && state == Reconnecting
        && timers == RetriedTimers(old(timers), cfg, tries, old(nextHandle))
        && nextHandle == old(nextHandle) + 1
    {
      if tries >= cfg.maxtries {
        ClearTimeInterval(RetrySlot);
        return None;
      }
      state := Reconnecting;
      ClearTimeInterval(TimeoutSlot);
      var delay := RetryTime(tries, cfg.maxRetryTime);
      var t := SetTimeout(CallConnect, delay);
      timers := timers[RetrySlot := t];
      return Some(t.handle);
    }

    /**
     * The keepalive. Below verbosity 2 it does nothing. The first call arms
     * a repeating timer at `keepalive` and sends nothing; later calls send
     * the heartbeat, unqueued, only while OPEN, and never re-arm.
     */
    method SendHeartbeat(now: int) returns (r: HeartbeatResult)
      requires Valid()
      modifies this`timers, this`nextHandle, this`messages, service
      ensures Valid()
      ensures service != null ==> service.readyState == old(service.readyState) && service.closeCalls == old(service.closeCalls)
      ensures r != Beat ==> messages == old(messages) && (service != null ==> service.outbox == old(service.outbox))
      ensures cfg.verbosity < 2 ==> r == Disabled && timers == old(timers) && nextHandle == old(nextHandle)
      ensures cfg.verbosity >= 2 && HeartbeatSlot !in old(timers) ==>
        r == Armed(old(nextHandle)) && timers == old(timers)[HeartbeatSlot := HeartbeatTimer(cfg, old(nextHandle))]
        && nextHandle == old(nextHandle) + 1
      ensures cfg.verbosity >= 2 && HeartbeatSlot in old(timers) && state != Open ==>
        r == NotOpen(state) && timers == old(timers) && nextHandle == old(nextHandle)
      ensures cfg.verbosity >= 2 && HeartbeatSlot in old(timers) && state == Open ==>
        && r == Beat && timers == old(timers) && nextHandle == old(nextHandle) && messages == old(messages)
        && service.outbox == old(service.outbox) + Delivered(service.readyState, [Serialize(HeartbeatPayload(cfg, now), now)])
    {
      if cfg.verbosity < 2 {
        return Disabled;
      }
      if HeartbeatSlot !in timers {
        var t := SetInterval(CallSendHeartbeat, cfg.keepalive);
        timers := timers[HeartbeatSlot := t];
        return Armed(t.handle);
      }
      if state != Open {
        return NotOpen(state);
      }
      Send(HeartbeatPayload(cfg, now), false, now);
      return Beat;
    }

    /** Sends the handshake, unqueued, when verbosity is at least 1. */
    method SendHandshake(now: int) returns (sent: bool)
      requires Valid()
      requires cfg.verbosity >= 1 ==> service != null
      modifies this`messages, service
      ensures Valid()
      ensures service != null ==> service.readyState == old(service.readyState) && service.closeCalls == old(service.closeCalls)
      ensures sent == (cfg.verbosity >= 1) && messages == old(messages)
      ensures service != null ==>
        service.outbox == old(service.outbox) +
          Delivered(service.readyState, if cfg.verbosity >= 1 then [Serialize(Record(cfg.handshake), now)] else [])
    {
      if cfg.verbosity < 1 {
        return false;
      }
      Send(Record(cfg.handshake), false, now);
      return true;
    }
  }
}
