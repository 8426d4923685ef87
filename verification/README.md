# Device-connect WebSocket bootstrap, modelled in Dafny

This project models the connection routine of the mender-shell device-connect
package: how `Connect` turns a server origin URL, a path and a bearer token into
a WebSocket dial, and how the resulting connection is configured for liveness.

- `scheme.dfy` (module `Scheme`): the scheme translation `https` → `wss`,
  `http` → `ws`, anything else unchanged.
- `decimal.dfy` (module `Decimal`): the decimal reading of a ping payload by
  `strconv.Atoi` on a 64-bit platform, whose error the handler discards. The
  digits are scanned left to right: the first non-digit is a syntax error with
  value 0, but a run of digits that overflows 64 bits first is a range error
  whose value is the `int64` bound of the payload's sign (so
  `"99999999999999999999x"` reads as the largest `int64`, not 0). `Atoi(Itoa(n))`
  is `n` for every `int64`, and the fast-path scanning loop of `Atoi` is a verified method.
- `goint.dfy` (module `GoInt`): `int64`/`uint64` bounds, saturation, and the
  two's-complement wrap-around of `int64` arithmetic.
- `connect.dfy` (module `DeviceConnect`): the dial target and headers, the
  all-or-nothing outcome of `Connect` with URL parsing and dialing as oracles,
  the initial read limit (8192 bytes) and read deadline (10 seconds after
  `now`), and the ping handler as a pure transition `OnPing`: the read deadline
  becomes `now` plus the payload interval converted to a `time.Duration`
  (wrapping around in `int64` as Go does), and exactly one empty pong is
  written with a deadline 4 seconds after `now`. This is not quite the
  Ping/Pong exchange of sections 5.5.2 and 5.5.3 of RFC 6455: the peer puts
  the length of its next liveness window in the ping's application data, and
  the reply is an empty pong every time, where section 5.5.3 would have it
  repeat the ping's application data.
- `wrappers.dfy` (module `Wrappers`): `Option` and `Result`.

Time is an integer number of nanoseconds, the unit of Go's `time.Duration`,
passed in as `now`. Errors from the URL
parser, the dialer and the pong write are opaque values handed back unchanged,
as the Go code returns them; the model does not invent an error taxonomy of its
own.

## Model

| member | source | states |
|---|---|---|
| `Scheme.WebSocketScheme` | deviceconnect/connect.go:67-74 | `https` gives `wss`, `http` gives `ws`; the result equals the input exactly when the input is neither `http` nor `https`; the result is never `http` or `https` |
| `Scheme.Idempotent` | deviceconnect/connect.go:67-74 | translating an already translated scheme changes nothing |
| `Scheme.Preimage` | deviceconnect/connect.go:67-74 | the full inverse image: `wss` comes from `https` or `wss`, `ws` from `http` or `ws`, `http`/`https` from nothing, any other scheme only from itself |
| `Scheme.Image` | deviceconnect/connect.go:67-74 | a scheme is a possible result exactly when it is not `http` or `https` |
| `Decimal.Atoi` | deviceconnect/connect.go:60 | the value read always fits in `int64`; after a syntax error it is 0; when no error is reported the text is well formed and the value is its exact decimal value (the digit loop of `strconv.ParseUint` is `ScanDigits`, with `ParseUint` rejecting empty text) |
| `Decimal.AtoiWellFormed` | deviceconnect/connect.go:60 | well-formed text (optional sign, one or more digits) reads as its exact value saturated to `int64`, with a range error exactly when it saturated |
| `Decimal.AtoiStray` | deviceconnect/connect.go:60 | text with a stray non-digit after a run of digits reads as 0 with a syntax error if those digits fit in 64 bits, and otherwise as the `int64` bound of its sign with a range error, because the scan stops at the overflow |
| `Decimal.AtoiNoDigits` | deviceconnect/connect.go:60 | text with nothing after the optional sign (`""`, `"+"`, `"-"`) is a syntax error and reads as 0 |
| `Decimal.AtoiFastPath` | deviceconnect/connect.go:60 | the fast-path loop for text of 1 to 18 bytes (one character per byte, as for ASCII text) succeeds exactly on well-formed text, reports an error exactly when the general parse does, and yields the same value |
| `Decimal.AtoiItoa` | deviceconnect/connect.go:60 | reading back the decimal text of any `int64` gives that integer with no error |
| `Decimal.ExamplesWellFormed` | deviceconnect/connect.go:60 | `"30"` reads as 30 and `"-7"` as -7, without error |
| `Decimal.ExamplesSyntax` | deviceconnect/connect.go:60 | `"abc"` and `"+"` are syntax errors and read as 0 |
| `Decimal.ExampleOverflowBeforeStray` | deviceconnect/connect.go:60 | `"99999999999999999999x"` reads as the largest `int64` with a range error, not as 0 |
| `DeviceConnect.DurationOfSeconds` | deviceconnect/connect.go:61 | converting a count of seconds to nanoseconds gives an `int64`, congruent to the exact product modulo 2^64 (the two's-complement wrap), and equal to it for up to 9223372036 seconds either way |
| `DeviceConnect.Target` | deviceconnect/connect.go:47-48 | the dial scheme is never `http` or `https` |
| `DeviceConnect.TargetComponents` | deviceconnect/connect.go:47-48 | the target has the translated scheme, the server's host, exactly the caller's path, and no user, query or fragment |
| `DeviceConnect.TargetDependsOnlyOnSchemeAndHost` | deviceconnect/connect.go:47-48 | two server URLs give the same target if and only if their schemes translate alike and their hosts agree; their path, query, fragment and user never matter |
| `DeviceConnect.AuthHeaders` | deviceconnect/connect.go:49-50 | the header map handed to the dialer carries exactly one key, `Authorization`, with exactly one value (the dialer adds its own handshake headers, which are not modelled) |
| `DeviceConnect.BearerTokenRoundTrip` | deviceconnect/connect.go:49-50 | reading the header map handed to the dialer gives back exactly the caller's token after `Bearer `, and two tokens give the same header map if and only if they are equal |
| `DeviceConnect.Established` | deviceconnect/connect.go:57-58 | a freshly established connection has read limit 8192, a read deadline 10 seconds after `now`, no control writes, and the dialed target |
| `DeviceConnect.Connect` | deviceconnect/connect.go:40-64 | a parse error is returned unchanged with no dial; otherwise exactly the composed request (`Request`: the target and the authorization header, the arguments of the dial at line 51) is dialed; a connection is returned if and only if the dial succeeded, a dial error is returned unchanged, and a returned connection is configured as `Established` |
| `DeviceConnect.ParseFailureSkipsDial` | deviceconnect/connect.go:42-45 | when parsing fails the outcome does not depend on the dialer or the clock and is the parse error |
| `DeviceConnect.OnPing` | deviceconnect/connect.go:59-63 | handling a ping keeps the read limit and target, keeps all earlier writes and appends exactly one, and returns the pong write's own error unchanged, or no error when the write succeeded |
| `DeviceConnect.PingDeadline` | deviceconnect/connect.go:60-61 | the new read deadline is the ping time plus the `Atoi` value converted to nanoseconds, never depends on the previous deadline, is the ping time itself after a syntax error, and is exactly the requested number of seconds later for a well-formed interval of up to 9223372036 seconds |
| `DeviceConnect.PingExamples` | deviceconnect/connect.go:60-61 | a `"30"` ping moves the deadline 30 seconds past the ping, `"abc"` to the ping time, and `"99999999999999999999x"` to one second before the ping (the largest `int64` times one second wraps to minus one second) |
| `DeviceConnect.PingWritesOnePong` | deviceconnect/connect.go:62 | the one appended write is an empty pong whose write deadline is 4 seconds after the ping |
| `DeviceConnect.ReplayWrites` | deviceconnect/connect.go:59-63 | running the handler on any sequence of pings from any connection keeps the read limit, the target and every earlier write, and appends exactly one pong per ping, in ping order, each with a write deadline 4 seconds after its ping |
| `DeviceConnect.ReplayDeadline` | deviceconnect/connect.go:60-61 | after any sequence of pings the read deadline is the one the last ping asked for, whatever earlier pings asked, and is untouched when no ping came |
| `DeviceConnect.ReplayFromEstablished` | deviceconnect/connect.go:56-63 | after the handler has run on any sequence of pings (`Replay`: successive handler calls), starting from an established connection, the read limit is still 8192, the i-th write is the pong of the i-th ping, and the read deadline is the one the last ping asked for (or 10 seconds after establishment with no ping); the sequence may include pings the transport would never deliver, see the life-cycle line under Left out |
| `DeviceConnect.Scenarios` | deviceconnect/connect.go:40-54 | an `https://example.com/ignored?x=1` origin with path `/api/v1/connect` and token `abc123` dials `wss://example.com/api/v1/connect` with `Authorization: Bearer abc123`; a parse failure yields that error and no dial |

## Left out

- Dialing, TLS and the HTTP upgrade handshake (`dialer.Dial` with the default dialer's settings): network I/O inside the WebSocket library, modelled as a total oracle from dial request to success or error. This includes how the request is written on the wire: Go's HTTP header writer turns CR and LF in header values into spaces and trims surrounding whitespace, so a token with such characters does not reach the server verbatim; the model stops at the header map handed to the dialer.
- The internals of `url.Parse` and of `url.URL.String()`: library code; the model takes the parse outcome as input and hands the dialer the URL record instead of its text.
- Header key canonicalisation by `http.Header.Set`: `Authorization` is already in canonical form, so the map key is written as is.
- Enforcement of the read limit and of the read and write deadlines (oversized messages failing, reads after the deadline failing, the connected/live/dead life cycle, and the transport keeping the handler's error as a permanent read error so that no ping follows a failed pong write): done by the transport; only the configured values and the handler's own behaviour are modelled.
- The errors of `SetReadDeadline` at lines 58 and 61 of deviceconnect/connect.go, which the source discards (a closed connection refuses the new deadline, yet `Connect` still returns the connection and the handler still writes the pong): the model records the requested deadline as if it were always accepted.
- `time.Now()`: replaced by an integer `now` in nanoseconds; the handler's separate clock reads for the read deadline and the pong deadline are taken as one instant.
- `time.Time.Add`: the deadline is `now` plus the `int64` duration in unbounded arithmetic; Go's own saturation of `time.Time` at its representable range (hundreds of billions of years) is not modelled. The `int64` wrap of `time.Duration(pongWait) * time.Second` is modelled.
- `Decimal.Atoi`: models Go's `int` as 64 bits. On a 32-bit build `Atoi` takes its fast path only below 10 characters and saturates at the 32-bit bounds, which the model does not cover.
- Byte encoding of the ping payload: the payload is read as one character per byte, which is exact for ASCII text. For a payload with multi-byte UTF-8 characters Go's fast-path test counts bytes where `Decimal.AtoiFastPath` counts characters; since the fast path agrees with the general parse on every input, only which loop runs can differ, not the value or the error.
- Serialisation between the pong write and the caller's own writes: a concurrency concern outside this sequential model.
