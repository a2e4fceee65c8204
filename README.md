# gsocket in Dafny

A model of gsocket, a browser WebSocket connection manager, and of the small
dotted-path accessor (`Keypath`) it ships with, with proofs of what the
manager and the accessor promise.

The manager (`GSocket`) owns one transport at a time. It validates the
endpoint before building a transport. It counts connection attempts. It
watches each attempt with a connect timeout. It retries with exponential
backoff, capped at `maxRetryTime` and limited to `maxtries` attempts. It
queues messages while the transport is not open and flushes them in order
when it opens. It sends a handshake at verbosity 1 or more, and a heartbeat on
a `keepalive` interval at verbosity 2.

Modules:

- `Wrappers`: the `Option` type.
- `SocketCore`: the pure part.
  - the state codes and the two tables the source declares (constants and names);
  - the configuration record and its defaults;
  - payload serialisation with its timestamp;
  - the endpoint check, the connect failure and the backoff delay.
- `Socket`: the mutable part.
  - `Transport` is the WebSocket as the manager sees it: `readyState`, the frames sent to it, and how often it was closed.
  - `GSocket` is the manager itself: a class whose methods update its fields in place.
  - Its three timer properties (`retryId`, `timeoutId`, `heartbeatId`) become a map from slot to the timer armed there.
  - The events it emits are recorded in `emitted`.
  - Every method keeps the class invariant `Valid()`. Under that invariant, an armed retry always carries the backoff computed from the current attempt count, and that count is still below `maxtries`.
- `SocketScenarios`: client code that drives a manager through typical usage (queue then flush, no endpoint, a throwing provider, retry exhaustion, close-code retry, heartbeat). Each scenario is proved from the `Socket` contracts alone. `RetryUntilExhausted` is a loop: against a server that never answers, exactly `maxtries` attempts are made, with delays of 2^k - 1 seconds (capped), for a transport that reports nothing after being closed.
- `Keypath`: `set`, `get` and `has` on nested objects, modelled as values.
  - `get` is a method with a loop, proved against the recursive traversal `Find`.
  - `set` is proved to round-trip with `get` for a non-empty path, to return the parent it stored into, and to leave unchanged every path that leaves its own path at an existing object.

Where the repository's test disagrees with the code, or the code departs from
what its comments suggest, the model follows the code:

- An attempt whose provider throws leaves the manager CLOSED, not ERRORED. Under the defaults the test's setup records two errors: `SocketScenarios.ProviderTestAsConfigured`.
- `disconnect` closes the transport but keeps the reference to it.
- `onError` and `onClosed` do not clear the connect timeout. The timeout slot can therefore stay armed outside CONNECTING, and `Valid()` does not claim otherwise.
- `retrytime` is declared but never read; the backoff uses `maxRetryTime` only.

## Model

| member | source | states |
|---|---|---|
| SocketCore.StateOf | src/gsocket.js:213-256 | decoding a code yields a state with that code, and None only for codes no state has |
| SocketCore.StateCodeRoundTrip | src/gsocket.js:213-256 | every state survives encoding then decoding, so state codes are distinct |
| SocketCore.CodeAgreesWithTables | src/gsocket.js:213-256 | the numbering agrees with every declared class constant (all but RECONNECTING) and with every entry of the name table (all but CLOSING) |
| SocketCore.RetryStateAsWrittenIsUndefined | src/gsocket.js:641 | as written, the retry assigns the undeclared RECONNECTING constant, which is undefined, although the name table lists code 4 as RECONNECTING |
| SocketCore.Serialize | src/gsocket.js:475-491 | a string goes out unchanged; an object goes out with every field kept and `timestamp` set to the send time |
| SocketCore.SerializeAll | src/gsocket.js:517-519 | the queue goes out one frame per message, in queue order, each serialised as `send` does |
| SocketCore.Defaults | src/gsocket.js:51-184 | the default options: retry on close code 1006, at most 5 tries, verbosity 0 |
| SocketCore.IsValidEndpoint | src/gsocket.js:84-86 | the endpoint passes exactly when it starts with `ws://` or `wss://` |
| SocketCore.ValidateEndpoint | src/gsocket.js:409-412 | an unset or empty endpoint is "missing"; a non-empty one without a WebSocket scheme is "invalid"; there is no failure exactly when a WebSocket scheme is present |
| SocketCore.ConnectFault | src/gsocket.js:373-400 | an attempt fails exactly when the endpoint is missing or invalid or the provider throws |
| SocketCore.RetryTime | src/gsocket.js:431-437 | the backoff delay never exceeds `maxRetryTime` |
| SocketCore.RetryTimeMonotone | src/gsocket.js:431-437 | a later attempt never waits less than an earlier one |
| SocketCore.RetryTimeCapped | src/gsocket.js:431-437 | once tries * 1000 ms reach the cap, the delay is the cap |
| SocketCore.RetryTimeDoubles | src/gsocket.js:431-437 | below the cap each further attempt waits twice as long plus one second, until the cap takes over |
| Socket.Transport.Send | src/gsocket.js:488 | the transport's frame log grows by exactly the frame sent |
| Socket.Transport.Close | src/gsocket.js:405 | closing is counted; a connecting or open transport moves to CLOSING |
| Socket.DeliveredAppend | src/gsocket.js:475-491 | what an unchanged transport delivers of two batches is what it delivers of their concatenation |
| Socket.GSocket.constructor | src/gsocket.js:282-325 | a new manager is initialised once and is in one of three states: idle and CLOSED, CLOSED with one recorded connect failure, or CONNECTING with a fresh transport and only the connect timeout armed |
| Socket.GSocket.Init | src/gsocket.js:310-325 | a second call changes nothing; the first resets and, with `autoconnect`, connects, with the same three outcomes |
| Socket.GSocket.Reset | src/gsocket.js:335-361 | the queue, the error log, the attempt count and every timer are cleared; the state is the given one if truthy, otherwise CLOSED (so code 0, CONNECTING, gives CLOSED) |
| Socket.GSocket.Connect | src/gsocket.js:367-402 | refused while CONNECTING with nothing changed; a non-empty argument replaces the endpoint; a failure is logged, emitted and leaves CLOSED without counting an attempt or touching timers; success gives a fresh transport for the endpoint, one more attempt, CONNECTING, and the connect timeout as the only timer |
| Socket.GSocket.Attempt | src/gsocket.js:373-400 | an accepted attempt either fails (logged, emitted, CLOSED, attempt count, timers and transport untouched) or starts a fresh transport for the endpoint with the connect timeout as the only timer |
| Socket.GSocket.StartAttempt | src/gsocket.js:377-391 | the success path of `connect`: a fresh transport for the endpoint, still connecting and with nothing sent, one more attempt, CONNECTING, every timer cleared and only the connect timeout armed |
| Socket.GSocket.Disconnect | src/gsocket.js:404-407 | the transport, if any, is closed once and kept: it moves to CLOSING if it was connecting or open, and its sent frames are untouched; the manager is reset to CLOSED |
| Socket.GSocket.ClearTimeInterval | src/gsocket.js:746-754 | exactly the named timer slot is emptied |
| Socket.GSocket.ClearIds | src/gsocket.js:418-423 | after the loop over the three timer properties no timer is armed |
| Socket.GSocket.SetTimeout | src/gsocket.js:720-722 | a one-shot timer with a handle never issued before |
| Socket.GSocket.SetInterval | src/gsocket.js:732-734 | a repeating timer with a handle never issued before |
| Socket.GSocket.HandleTimeout | src/gsocket.js:446-463 | the transport is closed once (CLOSING if it was connecting or open, its sent frames untouched) and dropped; the state becomes TIMEDOUT; with `reconnectAfterTimeout` off nothing else happens, otherwise a retry is made as `RetryConnection` states |
| Socket.GSocket.Send | src/gsocket.js:475-491 | while the transport is not OPEN nothing goes out and the message is queued unless `store` is false; while OPEN exactly its serialised frame goes out and the queue is untouched |
| Socket.GSocket.OnConnected | src/gsocket.js:497-520 | OPEN, attempt count 0, no errors, "connected" emitted, only the heartbeat armed (at verbosity 2); the transport receives the handshake (unless already OPEN) and then the previously queued messages in order, and the queue is empty if they went out |
| Socket.GSocket.Greet | src/gsocket.js:501 | the handshake goes out unless the manager is already OPEN |
| Socket.GSocket.Reopen | src/gsocket.js:503-520 | the reset to OPEN, the heartbeat, the "connected" event and the flush of the queue snapshot, in that order |
| Socket.GSocket.Flush | src/gsocket.js:517-519 | the snapshot's frames go out in order when OPEN; otherwise every message is re-queued in order |
| Socket.GSocket.OnClosed | src/gsocket.js:528-551 | CLOSED and "closing" emitted; a retry is made exactly when the close code is one of `reconnectOnClose` |
| Socket.GSocket.OnError | src/gsocket.js:606-622 | the error is logged and emitted and the state is CLOSED; no retry |
| Socket.GSocket.RetryConnection | src/gsocket.js:628-654 | with the tries used up, only the retry slot is cleared and None returned; otherwise RECONNECTING, the connect timeout cleared, and a retry armed after `RetryTime(tries)` whose handle is returned |
| Socket.GSocket.SendHeartbeat | src/gsocket.js:670-684 | disabled below verbosity 2; the first call arms the interval at `keepalive`; later calls report the state if not OPEN, otherwise send the heartbeat stamped with the time, unqueued |
| Socket.GSocket.SendHandshake | src/gsocket.js:693-698 | at verbosity 1 or more the handshake goes out, stamped and unqueued; below it nothing is sent |
| SocketScenarios.QueueThenFlush | src/gsocket.js:475-520 | two messages sent while connecting go out in send order on opening, and the queue ends empty |
| SocketScenarios.UnstoredSendIsDropped | src/gsocket.js:476-480 | a message sent with `store` false before opening is neither queued nor sent |
| SocketScenarios.NoEndpoint | src/gsocket.js:409-412 | connecting without an endpoint records one missing-endpoint error, stays CLOSED and arms no timer |
| SocketScenarios.ProviderThrows | src/gsocket.js:376-400 | a throwing provider records one error and leaves CLOSED with no attempt counted |
| SocketScenarios.ProviderTestAsConfigured | test/spec/gsocket-spec.js:111-122 | under the defaults the test's setup ends CLOSED with two errors, where the test expects ERRORED and one |
| SocketScenarios.RetryUntilExhausted | src/gsocket.js:446-463 | a never-answering server gets exactly `maxtries` attempts; retry k waits `RetryTime(k)`; afterwards the manager is TIMEDOUT with no retry armed, for a transport that reports nothing after being closed (a browser WebSocket closed while connecting also reports an error and a 1006 close, which add one error per attempt and end in CLOSED) |
| SocketScenarios.RetryExhaustion | src/gsocket.js:628-654 | with `maxtries` 3 the retries wait 1 s and 3 s, and a further retry call returns None and arms nothing |
| SocketScenarios.CloseCodeRetry | src/gsocket.js:528-551 | close code 1006 on an open connection retries at once (delay 0); code 1000 does not |
| SocketScenarios.HeartbeatProtocol | src/gsocket.js:670-698 | at verbosity 2 the handshake goes out stamped, the interval runs at 30 s, and each firing while OPEN sends one stamped heartbeat |
| SocketScenarios.QuietConnection | src/gsocket.js:670-698 | at verbosity 0 opening sends nothing and the heartbeat is disabled |
| Keypath.Split | lib/gkeypath/keypath.js:48 | splitting gives at least one piece and no piece contains a dot |
| Keypath.JoinSplit | lib/gkeypath/keypath.js:48 | joining the pieces with dots gives the path back |
| Keypath.SplitJoin | lib/gkeypath/keypath.js:48 | splitting the join of dot-free pieces gives the pieces back |
| Keypath.SetAlong | lib/gkeypath/keypath.js:50-57 | the walk never reports "no target"; at each object it keeps every property but the one on the path and adds that one; a store into a primitive leaves it unchanged |
| Keypath.Set | lib/gkeypath/keypath.js:45-58 | nothing happens exactly when the target is falsy |
| Keypath.WritableIff | lib/gkeypath/keypath.js:50-55 | the store lands in an object exactly when every truthy node met on the way is an object; missing and falsy ones are replaced by new objects |
| Keypath.StoredIsFound | lib/gkeypath/keypath.js:50-57 | after such a store the full path leads to the value, and the path without its last piece leads to the returned parent |
| Keypath.SetThenGet | lib/gkeypath/keypath.js:45-72 | for a non-empty path, after `set` stored into an object, `get` on the same path returns the value and `has` (as intended) is true; on the empty path `get` answers false instead |
| Keypath.SetLeavesOtherPaths | lib/gkeypath/keypath.js:50-55 | every path that leaves the written path at an existing object reads the same before and after `set` |
| Keypath.Get | lib/gkeypath/keypath.js:60-72 | the loop returns what the reference traversal gives: false for a falsy target or empty path, the default at the first missing piece, a TypeError at null or undefined, otherwise the node reached |
| Keypath.FoundIffPresent | lib/gkeypath/keypath.js:66-71 | the traversal finds a node exactly when every piece is an own property of the node reached before it, and the node found is the one reached |
| Keypath.Has | lib/gkeypath/keypath.js:74-76 | `has` as written throws exactly where the intended `has` does; for a present path it answers false only when the sentinel string is stored there, and for an absent one it answers true only for a falsy target or an empty path |
| Keypath.HasFalsyTargetAsWritten | lib/gkeypath/keypath.js:74-76 | as written, `has` answers true for a falsy target and for an empty path |
| Keypath.HasSentinelAsWritten | lib/gkeypath/keypath.js:74-76 | as written, `has` answers false when the stored value is the sentinel string |
| Keypath.HasAgreesOtherwise | lib/gkeypath/keypath.js:74-76 | outside those two cases the written `has` agrees with the intended one |
| Keypath.HasPathIff | lib/gkeypath/keypath.js:74-76 | the intended `has` is true exactly when the target is truthy, the path is non-empty and every piece is present |

## Left out

- Logging (`logger`, the console shim) and `logErrors` only produce output, so they are not modelled.
- `emit` is recorded as a list of emitted events rather than dispatched to listeners.
- `onMessage` and `processPlatformEvent` pass server messages to the application. They touch no manager state, so they are left out.
- Building the transport is a parameter: the provider either throws or returns a fresh transport. Attaching its four handlers is not modelled; the handlers are the methods with those names.
- The clock is a parameter `now` of each handler that stamps. One handler uses one clock reading.
- Timers are slots holding the timer armed there. The host timer queue is left out: running a callback is calling its method. The model does not capture a timer whose handle is overwritten without being cleared, which would still fire in a browser.
- Socket.GSocket.RetryConnection: the source reassigns `retryId` (src/gsocket.js:651) without clearing the timer it held. A retry armed by `handleTimeout` followed by a late close event with code 1006 from the dropped transport (whose `onclose` is still bound, 388-391) arms a second retry. The first still fires, and its attempt normally cancels the second through `clearIds` (381). When that attempt fails before line 381 (a failed endpoint check or a throwing provider), the second fires too, so a browser makes two attempts where the model makes one.
- `emit('closing', event)` passes the whole close event; the model records only its code, not its `reason`.
- JSON encoding is not modelled: an object goes out as its fields tagged `Json`. Payload field values are strings and integers only.
- `send` stamps the caller's object in place, and `sendHeartbeat` writes `beat` into the configured heartbeat object. The model builds the stamped copy instead. Only the frames are compared, so the in-place change to the caller's object is not captured.
- Socket.GSocket.Send: requires a transport. The source throws a TypeError when `send` is called with none (`this.service.readyState` on null).
- Socket.GSocket.SendHandshake: requires a transport at verbosity 1 or more, for the same reason.
- The `ID` field (`Date.now()` at construction) and the `DEFAULTS` merge are left out. The model takes an already merged `Config`, so `hasOwnProperty` checks on options are always true.
- Options read as JavaScript values (`verbosity`, `maxtries`, delays) are integers. `Math.pow` floating point is exact here because the values stay small.
- Keypath: objects are values, so aliasing between nested objects and in-place update are not modelled. Nor is the prototype chain.
- Keypath: strings and other primitives are modelled without own properties. The source would find `length` and index properties on a string.

## Findings

| source | as written | input that shows it | evidently intended | confidence | as-written member | corrected member |
|---|---|---|---|---|---|---|
| src/gsocket.js:641 | the retry assigns the state from `GSocket.RECONNECTING`, a constant never declared (213-243), so the state becomes `undefined` | any retry with tries below `maxtries`, e.g. `onClosed({code: 1006})` on an open connection | state code 4, the one the name table (248-256) lists as RECONNECTING | not executed | SocketCore.RetryStateAsWrittenIsUndefined | Socket.GSocket.RetryConnection |
| lib/gkeypath/keypath.js:74-76 | `has` compares `get`'s result with the sentinel, but `get` returns `false` for a falsy target or an empty path | `has(null, "a")` and `has({a: 1}, "")` are true | false when the target is falsy or the path empty | not executed | Keypath.HasFalsyTargetAsWritten | Keypath.HasPathIff |
| lib/gkeypath/keypath.js:74-76 | a stored value equal to the sentinel string reads as absent | `has({a: "#$#NFV#$#"}, "a")` is false | true whenever every piece is present, whatever is stored | not executed | Keypath.HasSentinelAsWritten | Keypath.HasPathIff |
