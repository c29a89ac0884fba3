# Dual-protocol server front end: a Dafny model of its decision logic

The `server` package of cybertron serves gRPC and a JSON/REST gateway over a
single listener. Most of `pkg/server/server.go` is socket, TLS and process
plumbing. This project models the sequential decisions inside it and proves
what they promise:

- **Configuration defaulting** (`setBaselineConfig`). An empty network becomes
  `"tcp4"` and an empty address becomes `":8080"`. Nothing else changes, and
  applying the defaults twice is the same as applying them once.
- **Protocol dispatch** (`isGRPCRequest`, `handlerFunc`). A request is gRPC
  exactly when it is HTTP/2 and its Content-Type contains `"application/grpc"`.
  Every request goes to exactly one of the gRPC server and the gateway.
- **Ephemeral-port rewrite** (`Start`, `ClientAddr`). After a successful
  listen, a bind address ending in `":0"` is replaced by the listener's
  address, and `ClientAddr` returns the stored address.
- **Health oscillator** (`runHealthCheckLoop`). The whole-process status,
  under the empty service name, is set to SERVING first and then alternates.
- **Readiness probe** (`readyForConnections`, `ReadyForConnections`). The
  probe succeeds exactly when some dial succeeded before the deadline. It
  pauses 25 ms after a failed attempt only when the duration exceeds 25 ms.

Files, one module each:

- `strings.dfy` (`GoStrings`): `strings.HasSuffix` and `strings.Contains`.
- `config.dfy` (`ServerConfig`): the `Config` class, its value `Settings`,
  defaulting and the ephemeral rewrite.
- `dispatch.dfy` (`Dispatch`): request classification and routing.
- `health.dfy` (`Health`): the health registry and the oscillator loop.
- `server.dfy` (`Lifecycle`): the `Server` class with `New`, `Start`,
  `ClientAddr` and the readiness probe.

Inputs that come from the outside world are parameters:

- the outcomes of the two service registrations and of `net.Listen`, with the
  address the listener reports;
- the readings of `time.Now()`;
- the outcome of each dial made by `check`.

A `log.Fatal` exit is modelled as a `Fatal` outcome of `Start`. Durations and
clock readings are integers counting nanoseconds, as Go's `time.Duration` does.

After each failed attempt the probe sleeps a full 25 ms whenever `d > 25ms`,
even when the deadline is closer than that (pkg/server/server.go:227-229);
`ReadyForConnectionsError` counts those pauses.

## Model

| member | source | states |
|---|---|---|
| `GoStrings.HasSuffix` | pkg/server/server.go:100 | `strings.HasSuffix`: true exactly when the suffix is no longer than the string and equals its last characters, position by position; `EphemeralSuffixChars` gives the ":0" case |
| `GoStrings.Contains` | pkg/server/server.go:156 | `strings.Contains`: true exactly when the token occurs at some position of the string (the empty token occurs everywhere) |
| `GoStrings.ContainsSurrounded` | pkg/server/server.go:156 | text added before or after a string never removes an occurrence of a token |
| `ServerConfig.Baseline` | pkg/server/server.go:65-72 | after defaulting both network and address are non-empty; an empty one gets `DefaultNetwork`/`DefaultAddress`, a set one keeps its value; origins, TLS flag, cert and key are untouched |
| `ServerConfig.BaselineFixesExactly` | pkg/server/server.go:65-72 | defaulting leaves a configuration as it is if and only if both network and address are already set |
| `ServerConfig.BaselineIdempotent` | pkg/server/server.go:65-72 | applying the defaults twice equals applying them once |
| `ServerConfig.SetBaselineConfig` | pkg/server/server.go:65-72 | the in-place update leaves the `Config` holding exactly `Baseline` of its old value |
| `ServerConfig.EphemeralRewrite` | pkg/server/server.go:100-102 | an address ending in ":0" becomes the listener's address, any other is kept; if the listener's address does not end in ":0", neither does the result |
| `ServerConfig.EphemeralRewriteIdempotent` | pkg/server/server.go:100-102 | once a concrete address is stored, rewriting again with it changes nothing |
| `ServerConfig.EphemeralSuffixChars` | pkg/server/server.go:100 | the ":0" test holds exactly when the last two characters are ':' and '0' |
| `ServerConfig.EphemeralRewriteExamples` | pkg/server/server.go:100-102 | ":0" and "127.0.0.1:0" are rewritten; ":8080" and "localhost:10" are kept |
| `Dispatch.IsGrpcRequest` | pkg/server/server.go:154-157 | a request is gRPC exactly when its major version is 2 and "application/grpc" occurs in its Content-Type; a non-HTTP/2 request never is |
| `Dispatch.Route` | pkg/server/server.go:143-151 | the dispatcher forwards to the gRPC server exactly when the request is gRPC and to the gateway exactly when it is not, so every request reaches exactly one handler |
| `Dispatch.NonHttp2GoesToGateway` | pkg/server/server.go:154-157 | a request whose major version is not 2 (HTTP/1.0, HTTP/1.1, ...) goes to the gateway whatever its content type |
| `Dispatch.GrpcTokenAnywhere` | pkg/server/server.go:154-157 | over HTTP/2, any content type embedding "application/grpc" (e.g. with a subtype or parameters) goes to the gRPC server |
| `Dispatch.GrpcExamples` | pkg/server/server.go:143-157 | "application/grpc" and "application/grpc+proto" over HTTP/2 go to the gRPC server; "application/grpc" over HTTP/1 goes to the gateway |
| `Dispatch.GatewayExamples` | pkg/server/server.go:143-157 | "application/json" and an absent Content-Type over HTTP/2 go to the gateway |
| `Health.Toggle` | pkg/server/server.go:125-129 | the next status always differs from the current one |
| `Health.StatusAt` | pkg/server/server.go:120-133 | the status set in round k (from 0) is SERVING exactly when k is even |
| `Health.ConsecutiveRoundsDiffer` | pkg/server/server.go:120-133 | two consecutive rounds set different statuses, and rounds two apart set the same |
| `Health.Oscillation` | pkg/server/server.go:116-133 | the first n rounds make n calls, all for the system service "", the k-th setting SERVING exactly when k is even |
| `Health.OscillationExtends` | pkg/server/server.go:122-132 | one more round appends exactly one call, for the system service, with that round's status |
| `Health.HealthServer.constructor` | pkg/server/server.go:81 | a new health server reports the whole process as SERVING and has recorded no calls |
| `Health.HealthServer.SetServingStatus` | pkg/server/server.go:123 | sets the status of one service name, leaves every other name as it was, and records the call |
| `Health.RunHealthCheckLoop` | pkg/server/server.go:120-133 | after n rounds the recorded calls are the old ones followed by `Oscillation(n)`, and the system status is that of round n-1 |
| `Lifecycle.Server.New` | pkg/server/server.go:56-63 | the server keeps the caller's configuration, which now holds its defaulted value |
| `Lifecycle.Server.ClientAddr` | pkg/server/server.go:246-248 | returns the stored address, which `Start` has rewritten when it asked for a free port |
| `Lifecycle.Server.Start` | pkg/server/server.go:84-112 | the first failing registration or listen is fatal and changes nothing; otherwise only the address changes, to the ephemeral rewrite, `ClientAddr` returns it, and serving is over TLS exactly when TLS is enabled |
| `Lifecycle.Server.ReadyForConnectionsError` | pkg/server/server.go:221-232 | no error exactly when some dial succeeded with every clock test up to it before the deadline; otherwise the error names `d`, every attempt failed and the last clock test reached the deadline; one pause per failed attempt when d > 25 ms, none otherwise |
| `Lifecycle.Server.ReadyForConnections` | pkg/server/server.go:215-219 | true exactly when the probe connected before the deadline; never true when every dial fails |

## Left out

- Sockets: `net.Listen`, `net.Dial` and `conn.Close` are left out. Their outcomes are parameters of `Start` and `ReadyForConnectionsError`.
- TLS: `serveTLS` (certificate loading and the TLS listener) is left out. `Start` reports only that it would serve over TLS.
- Serving: the h2c and HTTP/2 servers, `Serve` and `Shutdown` are library code and are left out.
- Start's fall-through to `serveInsecure` after `serveTLS` returns is left out. It cannot happen: `serveTLS` never returns, because `hs.Serve` always returns a non-nil error and each of its error paths calls `log.Fatal`, which exits the process.
- Registration: `RegisterServer`, `RegisterHandlerServer`, `RegisterHealthServer` and the gateway mux are external. Only whether each registration failed is modelled.
- CORS: the middleware and `corsOptions` are a thin library wrapper. The model does not look inside the gateway handler.
- Concurrency: the goroutines `runHealthCheckLoop` and `shutDownServerWhenContextIsDone`, and context cancellation, are left out, along with `log` output.
- Health.RunHealthCheckLoop: models a bounded number of rounds of a loop that never ends, and leaves out the five-second sleep between rounds.
- Health.HealthServer.SetServingStatus: leaves out grpc-go's shutdown flag and its watcher channels. The recorded history stands in for what watchers are told.
- Lifecycle.Server.ReadyForConnectionsError: requires the supplied clock readings to reach the deadline, because a finite list of readings must end the loop, as a real clock does. The length of each pause is not tied to the clock readings.
- Lifecycle.Server.ReadyForConnectionsError: models durations as unbounded integers. It does not model int64 overflow of `time.Now().Add(d)`, or the text of the error message beyond the duration it carries.
- The `Content-Type` header is modelled as the single string `Header.Get` returns. Header-name canonicalisation and repeated headers are not modelled.
