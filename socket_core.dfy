/**
 * The value-level part of the gsocket connection manager: its state codes,
 * its configuration record, the payloads it sends, the exponential backoff
 * and the endpoint check. Everything here is pure; the class that changes
 * state lives in module Socket.
 */
module SocketCore {
  import opened Wrappers

  /** The connection states the manager can be in. */
  datatype State = Connecting | Open | Closing | Closed | Reconnecting | Errored | TimedOut

  /**
   * The numeric code of each state. These are the WebSocket `readyState`
   * numbers (0 connecting, 1 open, 2 closing, 3 closed) extended with the
   * manager's own codes, as the state table of the source names them.
   */
  function Code(s: State): int {
    match s
    case Connecting => 0
    case Open => 1
    case Closing => 2
    case Closed => 3
    case Reconnecting => 4
    case Errored => -1
    case TimedOut => -2
  }

  /** Decodes a state code; the inverse of Code. */
  function StateOf(code: int): (r: Option<State>)
    ensures r.Some? ==> Code(r.value) == code
    ensures r.None? ==> forall s :: Code(s) != code
  {
    if code == 0 then Some(Connecting)
    else if code == 1 then Some(Open)
    else if code == 2 then Some(Closing)
    else if code == 3 then Some(Closed)
    else if code == 4 then Some(Reconnecting)
    else if code == -1 then Some(Errored)
    else if code == -2 then Some(TimedOut)
    else None
  }

  /** Every state survives a round trip through its code, so codes are distinct. */
  lemma StateCodeRoundTrip(s: State)
    ensures StateOf(Code(s)) == Some(s)
  {
  }

  /**
   * The class constants as the source declares them. There is no
   * declaration for RECONNECTING, so reading it yields `undefined`.
   */
  function DeclaredConstant(s: State): Option<int> {
    match s
    case Connecting => Some(0)
    case Open => Some(1)
    case Closing => Some(2)
    case Closed => Some(3)
    case Reconnecting => None
    case Errored => Some(-1)
    case TimedOut => Some(-2)
  }

  /** The code-to-name table of the source (CLOSING is commented out there). */
  function StateName(code: int): Option<string> {
    if code == 0 then Some("CONNECTING")
    else if code == 1 then Some("OPEN")
    else if code == 3 then Some("CLOSED")
    else if code == 4 then Some("RECONNECTING")
    else if code == -1 then Some("ERRORED")
    else if code == -2 then Some("TIMEDOUT")
    else None
  }

  /** The name a state is listed under in the code-to-name table. */
  function Name(s: State): string {
    match s
    case Connecting => "CONNECTING"
    case Open => "OPEN"
    case Closing => "CLOSING"
    case Closed => "CLOSED"
    case Reconnecting => "RECONNECTING"
    case Errored => "ERRORED"
    case TimedOut => "TIMEDOUT"
  }

  /**
   * As written, the retry procedure assigns the undeclared constant
   * RECONNECTING, so the state becomes `undefined` although the name table
   * lists code 4 as RECONNECTING.
   */
  function RetryStateAsWritten(): Option<int> {
    DeclaredConstant(Reconnecting)
  }

  lemma RetryStateAsWrittenIsUndefined()
    ensures RetryStateAsWritten() == None
    ensures StateName(4) == Some(Name(Reconnecting))
  {
  }

  /**
   * The corrected numbering (Code) agrees with every declared constant and
   * with every entry of the name table.
   */
  lemma CodeAgreesWithTables(s: State)
    ensures s != Reconnecting ==> DeclaredConstant(s) == Some(Code(s))
    ensures s != Closing ==> StateName(Code(s)) == Some(Name(s))
  {
  }

  /** A field value of a structured payload. */
  datatype Value = Str(s: string) | Num(n: int)

  type Fields = map<string, Value>

  /** What the application hands to `send`: a raw string or a structured object. */
  datatype Payload = Text(text: string) | Record(fields: Fields)

  /**
   * What goes on the wire. JSON encoding is not modelled: an object is sent
   * as its fields, tagged Json, and a string passes through as Raw.
   */
  datatype Wire = Raw(text: string) | Json(fields: Fields)

  const TimestampKey: string := "timestamp"

  /**
   * The wire form of a payload sent at time `now`: an object is stamped with
   * the send time, a string passes through unchanged.
   */
  function Serialize(m: Payload, now: int): (w: Wire)
    ensures m.Text? <==> w.Raw?
    ensures m.Text? ==> w.text == m.text
    ensures m.Record? ==> w.fields.Keys == m.fields.Keys + {TimestampKey}
    ensures m.Record? ==> w.fields[TimestampKey] == Num(now)
    ensures m.Record? ==> forall k :: k in m.fields && k != TimestampKey ==> w.fields[k] == m.fields[k]
  {
    match m
    case Text(s) => Raw(s)
    case Record(f) => Json(f[TimestampKey := Num(now)])
  }

  /** The wire forms of a queue of payloads, in queue order. */
  function SerializeAll(ms: seq<Payload>, now: int): (ws: seq<Wire>)
    ensures |ws| == |ms|
    ensures forall i :: 0 <= i < |ms| ==> ws[i] == Serialize(ms[i], now)
  {
    if ms == [] then [] else SerializeAll(ms[..|ms| - 1], now) + [Serialize(ms[|ms| - 1], now)]
  }

  /** Serialising one more message of a queue appends its frame. */
  lemma SerializeAllSnoc(ms: seq<Payload>, i: nat, now: int)
    requires i < |ms|
    ensures SerializeAll(ms[..i + 1], now) == SerializeAll(ms[..i], now) + [Serialize(ms[i], now)]
  {
    assert ms[..i + 1][..i] == ms[..i];
  }

  /** Why a connection attempt or a running transport failed. */
  datatype Fault =
    | MissingEndpoint
    | InvalidEndpoint
    | ProviderFailure
    | TransportError(detail: string)

  /**
   * The recognised options, merged once at initialisation and never changed
   * afterwards. `endpoint` is only the initial endpoint: `connect` may
   * replace it.
   */
  datatype Config = Config(
    endpoint: Option<string>,
    autoconnect: bool,
    verbosity: int,
    logErrors: bool,
    reconnectOnClose: seq<int>,
    reconnectAfterTimeout: bool,
    maxtries: int,
    retrytime: int,
    maxRetryTime: int,
    timeout: int,
    keepalive: int,
    handshake: Fields,
    heartbeat: Fields)

  /** The default options (the source declares no default endpoint). */
  function Defaults(): (c: Config)
    ensures c.reconnectOnClose == [1006] && c.maxtries == 5 && c.verbosity == 0
  {
    Config(
      endpoint := None,
      autoconnect := true,
      verbosity := 0,
      logErrors := true,
      reconnectOnClose := [1006],
      reconnectAfterTimeout := true,
      maxtries := 5,
      retrytime := 1 * 60 * 10000,
      maxRetryTime := 2 * (1 * 60 * 1000),
      timeout := 30000,
      keepalive := 30000,
      handshake := map["ping" := Str("ping")],
      heartbeat := map[])
  }

  /** `^ws(s?)://`: the scheme of a WebSocket URL, secure or not. */
  function IsValidEndpoint(e: string): (r: bool)
    ensures r <==> ("ws://" <= e || "wss://" <= e)
  {
    |e| >= 2 && e[0] == 'w' && e[1] == 's' &&
    var rest := if |e| > 2 && e[2] == 's' then e[3..] else e[2..];
    "://" <= rest
  }

  /**
   * The endpoint check run before any transport is built: an unset or empty
   * endpoint and one without a WebSocket scheme are the two failures.
   */
  function ValidateEndpoint(e: Option<string>): (r: Option<Fault>)
    ensures r.None? <==> e.Some? && ("ws://" <= e.value || "wss://" <= e.value)
    ensures r.Some? ==> r.value == (if e.None? || e.value == "" then MissingEndpoint else InvalidEndpoint)
  {
    if e.None? || e.value == "" then Some(MissingEndpoint)
    else if !IsValidEndpoint(e.value) then Some(InvalidEndpoint)
    else None
  }

  /** The failure, if any, of a connection attempt whose provider may throw. */
  function ConnectFault(e: Option<string>, providerThrows: bool): (r: Option<Fault>)
    ensures r.None? <==> e.Some? && IsValidEndpoint(e.value) && !providerThrows
  {
    match ValidateEndpoint(e)
    case Some(f) => Some(f)
    case None => if providerThrows then Some(ProviderFailure) else None
  }

  function Pow2(n: nat): (r: nat)
    ensures r >= 1
  {
    if n == 0 then 1 else 2 * Pow2(n - 1)
  }

  /**
   * Exponential backoff in milliseconds: 2^tries - 1 seconds, capped at
   * `maxRetryTime`.
   */
  function RetryTime(tries: nat, maxRetryTime: int): (delay: int)
    ensures delay <= maxRetryTime
  {
    var d := (Pow2(tries) - 1) * 1000;
    if d < maxRetryTime then d else maxRetryTime
  }

  lemma {:induction false} Pow2Monotone(a: nat, b: nat)
    requires a <= b
    ensures Pow2(a) <= Pow2(b)
  {
    if a < b {
      Pow2Monotone(a, b - 1);
    }
  }

  lemma {:induction false} Pow2Exceeds(n: nat)
    ensures Pow2(n) > n
  {
    if n > 0 {
      Pow2Exceeds(n - 1);
    }
  }

  /** A later attempt never waits less than an earlier one: the backoff is non-decreasing. */
  lemma RetryTimeMonotone(t1: nat, t2: nat, maxRetryTime: int)
    requires t1 <= t2
    ensures RetryTime(t1, maxRetryTime) <= RetryTime(t2, maxRetryTime)
  {
    Pow2Monotone(t1, t2);
  }

  /** Once tries * 1000 ms reach the cap, the backoff is exactly the cap. */
  lemma RetryTimeCapped(tries: nat, maxRetryTime: int)
    requires tries * 1000 >= maxRetryTime
    ensures RetryTime(tries, maxRetryTime) == maxRetryTime
  {
    Pow2Exceeds(tries);
  }

  /**
   * Below the cap each further attempt doubles the wait and adds one
   * second, until the cap takes over.
   */
  lemma RetryTimeDoubles(tries: nat, maxRetryTime: int)
    requires RetryTime(tries, maxRetryTime) < maxRetryTime
    ensures var d := RetryTime(tries, maxRetryTime);
      RetryTime(tries + 1, maxRetryTime) == if 2 * d + 1000 < maxRetryTime then 2 * d + 1000 else maxRetryTime
  {
    assert Pow2(tries + 1) == 2 * Pow2(tries);
  }
}
