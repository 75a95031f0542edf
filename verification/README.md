# Telemetry API listener — a Dafny model

This project models the `TelemetryApiListener` of the Go Lambda extension example
(`go-example-telemetry-api-extension/telemetryApi/listener.go`): the local HTTP endpoint
to which the Lambda Telemetry API pushes event batches. The model covers:

- **Address resolution** (`Address.ListenOnAddress`): `":4323"` exactly when the
  `AWS_SAM_LOCAL` environment variable is set to the string `"true"`, otherwise
  `"sandbox:4323"`. The environment lookup is an `Option<string>` parameter.
- **The endpoint URL** `Start` returns (`Address.EndpointUrl`): `"http://" + address + "/"`,
  with an inverse `Address.AddressOfUrl` and both round-trip lemmas.
- **The handler's decision rule** (`Marker`): a byte-substring test of the request body for
  `logsDropped`. The search `Marker.Contains` is proved equal to the reference definition
  "the marker occurs at some offset" in both directions.
- **The listener lifecycle** (`Listener`): the class `TelemetryApiListener` with its server
  reference, its event queue and a ghost log. Each method is proved against a pure
  transition function on `ListenerView` (`StartSpec`, `HandleSpec`, `ShutdownSpec`,
  `ServeReturnedSpec`), and the lifecycle properties are lemmas about those functions.

The server is the object `Listener.Server`: `Start` installs a fresh one whose handler is the
listener, so a second `Start` replaces the first reference; the replaced server is then
unreachable from `Shutdown` (see "## Left out"). The outcome of the HTTP
library's stop call is the `stopSucceeds` parameter of `Shutdown`. Whether the background
serve loop failed is the `serveFailed` parameter of `ServeReturned`.

What the code does, which the model follows:

- Only the exact value `"true"` selects the local address. `"TRUE"`, `"1"` and `""` do not (listener.go:37).
- `Shutdown` builds a one-second timeout context and discards it. The stop call gets no
  deadline, so the model states none.
- The handler never pushes onto the event queue (listener.go:70-76), although the comment above it
  (listener.go:65-66) says it does.
  The model proves that the queue is untouched by any series of requests.

## Model

| member | source | states |
|---|---|---|
| `Address.ListenOnAddress` | go-example-telemetry-api-extension/telemetryApi/listener.go:34-44 | the address is `":4323"` if and only if the variable is present and exactly `"true"`, and `"sandbox:4323"` in every other case |
| `Address.ListenOnAddressPort` | go-example-telemetry-api-extension/telemetryApi/listener.go:17-44 | every resolved address ends with `":"` and the fixed port `4323`; the host before it is empty under SAM local and `sandbox` otherwise |
| `Address.EndpointUrl` | go-example-telemetry-api-extension/telemetryApi/listener.go:61 | the URL starts with `http://`, ends with `/`, and the text in between is the address |
| `Address.AddressOfUrl` | go-example-telemetry-api-extension/telemetryApi/listener.go:61 | an address is read back exactly when the text has the `http://…/` shape |
| `Address.UrlRoundTrip` | go-example-telemetry-api-extension/telemetryApi/listener.go:61 | reading back the URL of an address gives that address |
| `Address.UrlOfAddressIsUnique` | go-example-telemetry-api-extension/telemetryApi/listener.go:61 | a URL that reads back as an address is exactly that address's URL |
| `Address.StartUrlCases` | go-example-telemetry-api-extension/telemetryApi/listener.go:34-61 | `Start` can return only `http://:4323/` (SAM local) or `http://sandbox:4323/` (anything else) |
| `Marker.ContainsIffOccurs` | go-example-telemetry-api-extension/telemetryApi/listener.go:73 | the substring search holds if and only if the pattern occurs at some offset of the body |
| `Marker.ReportsDrop` | go-example-telemetry-api-extension/telemetryApi/listener.go:73 | the handler's test holds exactly when `logsDropped` occurs somewhere in the body |
| `Marker.MarkerAnywhereIsReported` | go-example-telemetry-api-extension/telemetryApi/listener.go:73 | a body holding the marker at any position, with any bytes around it, is reported |
| `Marker.ShortBodyNotReported` | go-example-telemetry-api-extension/telemetryApi/listener.go:73 | a body shorter than the marker is never reported |
| `Marker.ReportIsStableUnderExtension` | go-example-telemetry-api-extension/telemetryApi/listener.go:73 | adding bytes before or after a reported body keeps it reported |
| `Listener.InitialView` | go-example-telemetry-api-extension/telemetryApi/listener.go:27-32 | a new listener has no server, an empty queue and no log entry |
| `Listener.StartSpec` | go-example-telemetry-api-extension/telemetryApi/listener.go:47-52 | after `Start` a server is owned whatever the prior state; the queue is unchanged and exactly one entry is appended to the log |
| `Listener.HandleSpec` | go-example-telemetry-api-extension/telemetryApi/listener.go:70-76 | a request changes neither the server ownership nor the queue |
| `Listener.ShutdownSpec` | go-example-telemetry-api-extension/telemetryApi/listener.go:79-89 | after `Shutdown` a server is owned if and only if one was owned and the stop failed; the queue is unchanged |
| `Listener.ServeReturnedSpec` | go-example-telemetry-api-extension/telemetryApi/listener.go:53-60 | when the serve loop returns, the next log entry is the unexpected-stop error if it failed and the closed notice otherwise; the queue is unchanged |
| `Listener.HandleLogsOnlyOnMarker` | go-example-telemetry-api-extension/telemetryApi/listener.go:70-76 | a request appends exactly one `Dropped` entry when the body holds the marker, and otherwise changes nothing |
| `Listener.HandleAllKeepsQueueAndServer` | go-example-telemetry-api-extension/telemetryApi/listener.go:70-76 | over any series of requests the queue and the server ownership are unchanged, and the log only grows, by one entry per body holding the marker |
| `Listener.QuietRequestsChangeNothing` | go-example-telemetry-api-extension/telemetryApi/listener.go:67-76 | requests without the marker leave the whole listener state, log included, as it was |
| `Listener.ShutdownWithoutServerIsNoop` | go-example-telemetry-api-extension/telemetryApi/listener.go:79-80 | `Shutdown` with no server changes nothing and logs nothing, whatever the stop would return |
| `Listener.FailedShutdownRetainsServer` | go-example-telemetry-api-extension/telemetryApi/listener.go:82-84 | a failed stop keeps the server and appends exactly one `ShutdownFailed` error |
| `Listener.ShutdownIsIdempotent` | go-example-telemetry-api-extension/telemetryApi/listener.go:80-88 | a successful stop releases the server without logging, and any `Shutdown` after it is a no-op |
| `Listener.RestartKeepsRunning` | go-example-telemetry-api-extension/telemetryApi/listener.go:47-52 | a second `Start` is not refused: the listener owns a server and has logged both addresses |
| `Listener.ServeFailureReleasesServer` | go-example-telemetry-api-extension/telemetryApi/listener.go:53-56 | a serve failure after `Start` logs the failure and, when the stop succeeds, releases the server without the caller calling `Shutdown` |
| `Listener.TelemetryApiListener.constructor` | go-example-telemetry-api-extension/telemetryApi/listener.go:27-32 | the new listener's state is the initial view: no server, empty queue |
| `Listener.Server.constructor` | go-example-telemetry-api-extension/telemetryApi/listener.go:50-52 | the new server dispatches requests to the listener that created it |
| `Listener.TelemetryApiListener.Start` | go-example-telemetry-api-extension/telemetryApi/listener.go:47-61 | the new state is `StartSpec` of the old; the server reference is a fresh server wired to this listener; the URL is `"http://" + address + "/"` and reads back as the address; the error is always absent |
| `Listener.TelemetryApiListener.HttpHandler` | go-example-telemetry-api-extension/telemetryApi/listener.go:70-76 | the new state is `HandleSpec` of the old; the server reference and the queue are the same as before |
| `Listener.TelemetryApiListener.Shutdown` | go-example-telemetry-api-extension/telemetryApi/listener.go:79-89 | the new state is `ShutdownSpec` of the old; the reference is cleared only when a server was owned and the stop succeeded |
| `Listener.TelemetryApiListener.ServeReturned` | go-example-telemetry-api-extension/telemetryApi/listener.go:53-60 | the new state is `ServeReturnedSpec` of the old: log the failure and run `Shutdown`, or log the clean close; the server reference is cleared only on a failed serve with a successful stop, and is otherwise the same object as before |

## Left out

- The fasthttp server itself (`ListenAndServe`, `Server.Shutdown`, `RequestCtx.PostBody`): a foreign network library. Only the outcome of its stop call (a `bool`) and of its serve loop (a `bool`) are modelled. The request body is a parameter.
- The goroutine of `Start` and its concurrency: the serve loop's return is the sequential method `ServeReturned`. The race between `Start` returning the URL and the server being bound, and any interleaving of the goroutine's `Shutdown` with the caller's, are not modelled.
- The queue library (`github.com/golang-collections/go-datastructures/queue`): the queue is a plain sequence. Its push and pop operations, its thread safety and its initial capacity hint of 5 are not modelled. No code in `listener.go` pushes onto it.
- The logger `l`: it is defined outside `listener.go`. The log is a ghost, append-only sequence of typed entries; level names and message formatting (the `%v` of the drop notice, the error values) are not modelled.
- The `context.WithTimeout` in `Shutdown`: its result is discarded, so the model claims no shutdown deadline.
- `os.LookupEnv` and `fmt.Sprintf`: replaced by an `Option<string>` parameter and string concatenation.
- A second `Start` drops the first `Server` reference without stopping it. In the Go code the first server's goroutine keeps serving, and `Shutdown` (listener.go:80-86) only reaches the current reference, so nothing can stop the first server; the model records the replacement (`fresh(fasthttpServer)`) but has no notion of a server that keeps running once unreferenced.
- The HTTP response: the handler writes nothing, and no status or body is modelled.
