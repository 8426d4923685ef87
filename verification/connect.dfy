/**
  Bootstrap of the device-connect WebSocket and its ping/pong liveness.

  `Connect` turns the server's origin URL into a WebSocket target (translated
  scheme, the origin's host, the caller's path), attaches a bearer token, dials,
  and on success configures the connection: an 8192-byte read limit, a read
  deadline 10 seconds ahead, and a ping handler. The handler departs from the
  Ping/Pong exchange of sections 5.5.2 and 5.5.3 of RFC 6455 in two ways: the
  peer uses the ping's application data to say how many seconds it grants
  until the next read deadline, and the reply does not echo that data, as
  section 5.5.3 asks, but is always an empty pong, written with a 4-second
  write deadline, one per ping.

  URL parsing, dialing and the outcome of a pong write are oracles handed in by
  the caller. Time is an integer number of nanoseconds, the unit of Go's
  `time.Duration`, passed in as `now`.
 */
module DeviceConnect {

  import opened Wrappers
  import opened Scheme
  import opened GoInt
  import Decimal

  /** One second in nanoseconds. */
  const Second: int := 1_000_000_000
  /** The most whole seconds an `int64` count of nanoseconds can hold (about 292 years). */
  const MaxDurationSeconds: int := 9_223_372_036
  /** Time allowed for writing a control message to the peer. */
  const WriteWait: int := 4 * Second
  /** Largest message, in bytes, accepted from the peer. */
  const MaxMessageSize: int := 8192
  /** Time allowed until the first message from the peer. */
  const DefaultPingWait: int := 10 * Second

  const AuthorizationKey: string := "Authorization"
  const BearerPrefix: string := "Bearer "

  /** An error produced by a collaborator; it is handed back unchanged. */
  type Error = string

  newtype byte = x: int | 0 <= x < 256

  /** The parts of a URL the connection logic reads or writes. */
  datatype URL = URL(
    scheme: string,
    user: string,
    host: string,
    path: string,
    rawQuery: string,
    fragment: string)

  /** What parsing the server URL produced. */
  datatype ParseResult = Parsed(url: URL) | ParseFailed(err: Error)

  /** Request headers: each key holds a list of values. */
  type Headers = map<string, seq<string>>

  /** What the dialer is asked to connect to. */
  datatype DialRequest = DialRequest(target: URL, headers: Headers)

  /** What the dialer reported. */
  datatype DialResult = Dialed | DialFailed(err: Error)

  /** What the transport reported for one control write. */
  datatype WriteResult = Written | WriteFailed(err: Error)

  datatype ControlKind = Pong

  /** One control frame handed to the transport, with its write deadline. */
  datatype ControlWrite = ControlWrite(kind: ControlKind, payload: seq<byte>, deadline: int)

  /** The configured state of an established connection. */
  datatype Conn = Conn(
    target: URL,
    readLimit: int,
    readDeadline: int,
    writes: seq<ControlWrite>)

  /** The dial request issued (if any) and what the caller gets back. */
  datatype Attempt = Attempt(dialed: Option<DialRequest>, result: Result<Conn, Error>)

  /** The reply of the ping handler: the updated connection and its error. */
  datatype PingReply = PingReply(conn: Conn, err: Option<Error>)

  /**
    `time.Duration(n) * time.Second`: `n` seconds in nanoseconds, computed in
    `int64` and so wrapping around for more than about 292 years either way.
   */
  function DurationOfSeconds(n: int): (d: int)
    requires IsInt64(n)
    ensures IsInt64(d)
    ensures (n * Second - d) % Modulus64 == 0
    ensures -MaxDurationSeconds <= n <= MaxDurationSeconds ==> d == n * Second
  {
    Wrap64(n * Second)
  }

  /** The WebSocket URL to dial for the server URL `server` and the path `connectUrl`. */
  function Target(server: URL, connectUrl: string): (u: URL)
    ensures !IsWebScheme(u.scheme)
  {
    URL(WebSocketScheme(server.scheme), "", server.host, connectUrl, "", "")
  }

  /** The request headers: a single `Authorization: Bearer <token>`. */
  function AuthHeaders(token: string): (h: Headers)
    ensures h.Keys == {AuthorizationKey}
    ensures |h[AuthorizationKey]| == 1
  {
    map[AuthorizationKey := [BearerPrefix + token]]
  }

  /** The bearer token carried by the header map `h`, if it holds exactly one `Authorization` value. */
  function BearerToken(h: Headers): (t: Option<string>)
    ensures t.Some? ==> AuthorizationKey in h && h[AuthorizationKey] == [BearerPrefix + t.value]
  {
    if AuthorizationKey in h && |h[AuthorizationKey]| == 1
      && |BearerPrefix| <= |h[AuthorizationKey][0]|
      && h[AuthorizationKey][0][..|BearerPrefix|] == BearerPrefix
    then
      var v := h[AuthorizationKey][0];
      assert v == BearerPrefix + v[|BearerPrefix|..];
      Some(v[|BearerPrefix|..])
    else None
  }

  /** The arguments handed to the dialer: the target and the authorization header. */
  function Request(server: URL, connectUrl: string, token: string): DialRequest {
    DialRequest(Target(server, connectUrl), AuthHeaders(token))
  }

  /** The connection as handed to the caller right after a successful dial at time `now`. */
  function Established(target: URL, now: int): (c: Conn)
    ensures c.readLimit == MaxMessageSize
    ensures c.readDeadline == now + DefaultPingWait
    ensures c.writes == []
    ensures c.target == target
  {
    Conn(target, MaxMessageSize, now + DefaultPingWait, [])
  }

  /**
    Connect: parse, build the target and headers, dial, configure. `dial` is
    the dialer's verdict on each request; `now` is the time after the dial.
   */
  function Connect(parse: ParseResult, connectUrl: string, token: string,
                   dial: DialRequest -> DialResult, now: int): (a: Attempt)
    ensures parse.ParseFailed? ==> a.dialed.None? && a.result == Failed(parse.err)
    ensures parse.Parsed? ==> a.dialed == Some(Request(parse.url, connectUrl, token))
    ensures a.result.Ok? <==> a.dialed.Some? && dial(a.dialed.value).Dialed?
    ensures a.dialed.Some? && dial(a.dialed.value).DialFailed? ==>
      a.result == Failed(dial(a.dialed.value).err)
    ensures a.result.Ok? ==> a.result.value == Established(a.dialed.value.target, now)
  {
    match parse
    case ParseFailed(e) => Attempt(None, Failed(e))
    case Parsed(server) =>
      var req := Request(server, connectUrl, token);
      match dial(req)
      case DialFailed(e) => Attempt(Some(req), Failed(e))
      case Dialed => Attempt(Some(req), Ok(Established(req.target, now)))
  }

  /**
    The ping handler for a ping with `payload` received at `now`: the read
    deadline becomes `now` plus the payload read by `strconv.Atoi` as seconds
    (its error dropped), one empty pong is written with deadline `now` plus 4
    seconds, and the handler returns whatever error that write reported.
   */
  function OnPing(c: Conn, now: int, payload: string, sent: WriteResult): (r: PingReply)
    ensures r.conn.readLimit == c.readLimit
    ensures r.conn.target == c.target
    ensures |r.conn.writes| == |c.writes| + 1
    ensures r.conn.writes[..|c.writes|] == c.writes
    ensures r.err == if sent.WriteFailed? then Some(sent.err) else None
  {
    var pongWait := Decimal.Atoi(payload).value;
    var pong := ControlWrite(Pong, [], now + WriteWait);
    var c' := c.(readDeadline := now + DurationOfSeconds(pongWait), writes := c.writes + [pong]);
    match sent
    case Written => PingReply(c', None)
    case WriteFailed(e) => PingReply(c', Some(e))
  }

  // ---------------------------------------------------------------------------
  // Properties
  // ---------------------------------------------------------------------------

  /**
    Two server URLs lead to the same target exactly when their schemes
    translate alike and their hosts agree; the user, path, query and fragment
    of the server URL never matter.
   */
  lemma TargetDependsOnlyOnSchemeAndHost(a: URL, b: URL, connectUrl: string)
    ensures Target(a, connectUrl) == Target(b, connectUrl) <==>
      WebSocketScheme(a.scheme) == WebSocketScheme(b.scheme) && a.host == b.host
  {
  }

  /** The target keeps the server's host, the translated scheme and exactly the caller's path. */
  lemma TargetComponents(server: URL, connectUrl: string)
    ensures Target(server, connectUrl).scheme == WebSocketScheme(server.scheme)
    ensures Target(server, connectUrl).host == server.host
    ensures Target(server, connectUrl).path == connectUrl
    ensures Target(server, connectUrl).user == ""
    ensures Target(server, connectUrl).rawQuery == ""
    ensures Target(server, connectUrl).fragment == ""
  {
  }

  /** Reading the header map handed to the dialer gives back exactly the caller's token, and distinct tokens give distinct maps. */
  lemma BearerTokenRoundTrip(token: string, other: string)
    ensures BearerToken(AuthHeaders(token)) == Some(token)
    ensures AuthHeaders(token) == AuthHeaders(other) <==> token == other
  {
  }

  /** A failed parse never reaches the dialer: the outcome is the same whatever the dialer would say. */
  lemma ParseFailureSkipsDial(e: Error, connectUrl: string, token: string,
                              d1: DialRequest -> DialResult, d2: DialRequest -> DialResult,
                              t1: int, t2: int)
    ensures Connect(ParseFailed(e), connectUrl, token, d1, t1) == Connect(ParseFailed(e), connectUrl, token, d2, t2)
    ensures Connect(ParseFailed(e), connectUrl, token, d1, t1).result == Failed(e)
  {
  }

  /**
    A ping sets the deadline from its own payload and time; the previous
    deadline is forgotten. A syntax error extends by nothing, and a well-formed
    interval of up to about 292 years extends by exactly that many seconds.
   */
  lemma PingDeadline(c: Conn, now: int, payload: string, sent: WriteResult)
    ensures OnPing(c, now, payload, sent).conn.readDeadline ==
      now + DurationOfSeconds(Decimal.Atoi(payload).value)
    ensures Decimal.Atoi(payload).err == Some(Decimal.ErrSyntax) ==>
      OnPing(c, now, payload, sent).conn.readDeadline == now
    ensures Decimal.WellFormed(payload) && -MaxDurationSeconds <= Decimal.Parse(payload).value <= MaxDurationSeconds ==>
      OnPing(c, now, payload, sent).conn.readDeadline == now + Decimal.Parse(payload).value * Second
  {
    if Decimal.WellFormed(payload) {
      Decimal.AtoiWellFormed(payload);
    }
  }

  /**
    A ping of `"30"` moves the deadline 30 seconds past the ping; `"abc"` moves
    it to the ping time itself; and `"99999999999999999999x"` reads as the
    largest `int64`, whose conversion to nanoseconds wraps to one second before
    the ping, so the deadline is already past.
   */
  lemma PingExamples(c: Conn, now: int, sent: WriteResult)
    ensures OnPing(c, now, "30", sent).conn.readDeadline == now + 30 * Second
    ensures OnPing(c, now, "abc", sent).conn.readDeadline == now
    ensures OnPing(c, now, "99999999999999999999x", sent).conn.readDeadline == now - Second
  {
    Decimal.ExamplesWellFormed();
    Decimal.ExamplesSyntax();
    Decimal.ExampleOverflowBeforeStray();
  }

  /** Exactly one pong is written per ping, with an empty payload and a deadline `WriteWait` after the ping. */
  lemma PingWritesOnePong(c: Conn, now: int, payload: string, sent: WriteResult)
    ensures OnPing(c, now, payload, sent).conn.writes == c.writes + [ControlWrite(Pong, [], now + WriteWait)]
  {
  }

  /** A ping received by the handler: its arrival time, payload and the fate of its pong. */
  datatype Ping = Ping(now: int, payload: string, sent: WriteResult)

  /**
    The connection after the handler has run on `pings` in order. The
    sequence may contain pings the transport would never deliver (after a
    failed pong write or past the read deadline); what the handler does is
    the same either way.
   */
  function Replay(c: Conn, pings: seq<Ping>): Conn
    decreases |pings|
  {
    if |pings| == 0 then c
    else
      var p := pings[|pings| - 1];
      OnPing(Replay(c, pings[..|pings| - 1]), p.now, p.payload, p.sent).conn
  }

  /**
    Replaying pings from any connection keeps its read limit, target and
    earlier writes, and appends one pong per ping, in order, each with its
    ping's write deadline.
   */
  lemma {:induction false} ReplayWrites(c: Conn, pings: seq<Ping>)
    ensures Replay(c, pings).readLimit == c.readLimit
    ensures Replay(c, pings).target == c.target
    ensures |Replay(c, pings).writes| == |c.writes| + |pings|
    ensures Replay(c, pings).writes[..|c.writes|] == c.writes
    ensures forall i :: 0 <= i < |pings| ==>
      Replay(c, pings).writes[|c.writes| + i] == ControlWrite(Pong, [], pings[i].now + WriteWait)
    decreases |pings|
  {
    if |pings| > 0 {
      var init := pings[..|pings| - 1];
      var p := pings[|pings| - 1];
      ReplayWrites(c, init);
      var before := Replay(c, init);
      var after := Replay(c, pings);
      assert after == OnPing(before, p.now, p.payload, p.sent).conn;
      PingWritesOnePong(before, p.now, p.payload, p.sent);
      forall i | 0 <= i < |pings|
        ensures after.writes[|c.writes| + i] == ControlWrite(Pong, [], pings[i].now + WriteWait)
      {
        if i < |init| {
          assert init[i] == pings[i];
          assert after.writes[|c.writes| + i] == before.writes[|c.writes| + i];
        }
      }
    }
  }

  /** After a replay the read deadline is the one the last ping asked for, or unchanged with no ping. */
  lemma ReplayDeadline(c: Conn, pings: seq<Ping>)
    ensures Replay(c, pings).readDeadline ==
      if |pings| == 0 then c.readDeadline
      else pings[|pings| - 1].now + DurationOfSeconds(Decimal.Atoi(pings[|pings| - 1].payload).value)
  {
    if |pings| > 0 {
      var p := pings[|pings| - 1];
      var before := Replay(c, pings[..|pings| - 1]);
      PingDeadline(before, p.now, p.payload, p.sent);
    }
  }

  /**
    After the handler has run on any sequence of pings, starting from a
    freshly established connection, the read limit is still 8192, one pong
    per ping has been written in order with its ping's write deadline, and
    the read deadline is the one the last ping asked for (or the initial 10
    seconds when no ping came).
   */
  lemma {:induction false} ReplayFromEstablished(target: URL, t0: int, pings: seq<Ping>)
    ensures Replay(Established(target, t0), pings).readLimit == MaxMessageSize
    ensures Replay(Established(target, t0), pings).target == target
    ensures |Replay(Established(target, t0), pings).writes| == |pings|
    ensures forall i :: 0 <= i < |pings| ==>
      Replay(Established(target, t0), pings).writes[i] == ControlWrite(Pong, [], pings[i].now + WriteWait)
    ensures Replay(Established(target, t0), pings).readDeadline ==
      if |pings| == 0 then t0 + DefaultPingWait
      else pings[|pings| - 1].now + DurationOfSeconds(Decimal.Atoi(pings[|pings| - 1].payload).value)
  {
    ReplayWrites(Established(target, t0), pings);
    ReplayDeadline(Established(target, t0), pings);
  }

  /**
    The scenario of an https origin with a path and query: the dial goes to
    `wss://example.com/api/v1/connect` with `Authorization: Bearer abc123`,
    and a malformed origin yields its parse error without any dial.
   */
  lemma Scenarios(dial: DialRequest -> DialResult, now: int)
    ensures
      var server := URL("https", "", "example.com", "/ignored", "x=1", "");
      var a := Connect(Parsed(server), "/api/v1/connect", "abc123", dial, now);
      && a.dialed == Some(DialRequest(URL("wss", "", "example.com", "/api/v1/connect", "", ""),
                                      map["Authorization" := ["Bearer abc123"]]))
      && (a.result.Ok? ==> a.result.value.readDeadline == now + 10 * Second && a.result.value.readLimit == 8192)
    ensures Connect(ParseFailed("invalid URL"), "/api/v1/connect", "abc123", dial, now)
      == Attempt(None, Failed("invalid URL"))
  {
    assert BearerPrefix + "abc123" == "Bearer abc123";
    assert WebSocketScheme("https") == "wss";
  }
}
