# go-prom instrumentation layer, modelled in Dafny

The Go package `prom` wraps HTTP handlers so that each request leaves one
latency observation in a Prometheus summary. The summary is labelled by status
class, request and method. The package also lets callers record one
dependency-call duration by hand. This project models that package:

- `Strings` (strings.dfy): Go's `strings.Split` and `strings.Join` for a
  one-character separator. It proves that Split never returns an empty list,
  that no field contains the separator, and that Split and Join undo each
  other.
- `Status` (status.dfy): the `switch` that maps a status code to
  "5xx", "4xx", "3xx" or "2xx". The cases are tried in order. Codes below 200
  fall to the `default` arm and are labelled "2xx" as well.
- `Metrics` (metrics.dfy): an abstract view of a `SummaryVec`. It holds a map
  from a triple of label values to the sequence of durations observed under
  it. It also holds the `Registry` with the package's two summaries,
  `requestTime` and `dependencyTime`. Durations are abstract clock ticks
  (`nat`). The module proves the count and sum of a summary child and the
  total number of observations across children (one more per `Observe`; N
  more after N calls, per key and in all). It also proves how label names
  pair with label values by position.
- `PromTracking` (prom.dfy), for prom/prom.go: the request label `Track`
  derives from the URI, the `Track` wrapper and `TrackDependency`.
- `PromMiddleware` (handler.dfy), for prom/handler.go: the `prom` wrapper and
  its `ServeHTTP`, `Prom`, `PromFunc`, and the `HandlerFunc` adapter.

The Go closures returned by `Track(h)` and `PromFunc(h)` are modelled as
methods that run the closure once on one request. The wrapped handler is a
function of the request. Its result is a `Call`: either it returns a value,
or it panics. A nil handler is the handler that always panics
(`NilHandle`, `NilHandler`, `NilHandlerFunc`). The source calls the handler
before its `switch` and has no `defer`. So when the handler panics, the panic
unwinds through the wrapper and nothing is recorded. The wrapper methods say
so, and they return whether the call panicked. The elapsed time is a parameter. The package-level
variables `requestTime` and `dependencyTime` become the fields of one
`Registry` object that is passed to each operation. Each wrapper method keeps
the switch of the source: five arms, each with its own `Observe` call. Its
postcondition states the resulting summary as one `Append` under the key
built from `Status.Classify`: `PromTracking.TrackKey` for `Track`, and
`PromMiddleware.ServedKey` for the two middleware wrappers. So each of the three inline copies of the switch
is proved to agree with the one classifier.

The label constants `Label5xx` … `Label2xx` that prom/handler.go uses are not
defined in the files modelled here. They are taken to be the strings "5xx",
"4xx", "3xx" and "2xx", which prom/prom.go writes out literally.

Notes on the code as written:

- The dependency summary's namespace is "dependancy" (prom/prom.go:16). So the
  metric is `dependancy_response_time`, not `dependency_response_time`.
- In prom/handler.go the request label is the name the wrapped handler
  returns. It is not a label fixed when the handler is wrapped.
- `TrackDependency` takes any string as the outcome label. Nothing restricts it
  to "Success" or "Failure". The dependency types the package names
  (prom/prom.go:21-25) are the constants `DependencyHTTP`, `DependencyRedis`
  and `DependencyDB`. `TrackDependency` accepts any other string just the same.
- A request whose handler panics leaves no observation. This holds however the
  panic is later recovered by the server.

## Model

| member | source | states |
|---|---|---|
| `Status.Classify` | prom/prom.go:89-100 | total, with exactly one of four labels: "5xx" iff status >= 500, "4xx" iff 400 <= status < 500, "3xx" iff 300 <= status < 400, "2xx" iff status < 300 (below 200, zero and negative included) |
| `Status.ClassifyIsHundredsDigit` | prom/prom.go:90-97 | for codes 200..599 the label is the hundreds digit of the code followed by "xx" |
| `Strings.Split` | prom/prom.go:83 | `strings.Split` on one separator: never empty, no field contains the separator, joining the fields with it gives back the input |
| `Strings.SplitJoin` | prom/prom.go:83 | Split is also a left inverse of Join on non-empty lists of separator-free fields |
| `PromTracking.RequestLabel` | prom/prom.go:83-87 | the request label is a prefix of the URI with no `?`; it is the whole URI when there is no `?`, otherwise the text before the first `?` |
| `PromTracking.TrackKeyLabels` | prom/prom.go:32 | in a `Track` observation, label "status_class" is the class of the status, "request" the URI label and "method" exactly the request method |
| `PromTracking.Track` | prom/prom.go:78-102 | reports a panic exactly when the handler panics. When the handler returns a status, the call appends exactly the elapsed time under (class(status), URI before `?`, method) and the total grows by one. When it panics, the request summary is unchanged. The wrapper itself writes nothing to the dependency summary |
| `PromTracking.NilTrackRecordsNothing` | prom/prom.go:81 | serving with `Track(nil)` panics and leaves the request summary unchanged |
| `PromTracking.TrackDependency` | prom/prom.go:72-74 | appends exactly `v` under (dep, req, status) in that order, with no check of `status`; other keys and the request summary are unchanged |
| `Metrics.Lookup` | prom/prom.go:32 | label names and values pair by position: the result is absent iff the name is not a label name, otherwise the value at the first position carrying the name |
| `Metrics.HttpLabelOrder` | prom/prom.go:32 | the HTTP summary's key components are, in order, status_class, request, method |
| `Metrics.DependencyLabelOrder` | prom/prom.go:43 | the dependency summary's key components are, in order, type, request, status_class |
| `Metrics.Append` | prom/prom.go:73 | one observation: the observed key gains the value at its end, every other key keeps its observations |
| `Metrics.SumAppend` | prom/prom.go:73 | observing `v` adds `v` to the summary child's sum |
| `Metrics.AppendTotal` | prom/prom.go:73 | observing once adds exactly one observation to the total over all keys |
| `Metrics.RecordAllTotal` | prom/prom.go:89-100 | N observations in sequence add exactly N to the total: none lost, none doubled |
| `Metrics.RecordAllCount` | prom/prom.go:89-100 | per key, the count grows by the number of observations in the sequence that carry that key |
| `Metrics.SummaryVec.constructor` | prom/prom.go:28-32 | `prometheus.NewSummaryVec`: a summary with the given namespace, name and label names, and no observations |
| `Metrics.SummaryVec.Observe` | prom/prom.go:73 | `WithLabelValues(k...).Observe(v)`: the summary becomes the old one with `v` appended under `k`, and nothing else changes |
| `Metrics.Registry.constructor` | prom/prom.go:13-47 | two distinct fresh empty summaries named http/response_time and dependancy/response_time, with label names (status_class, request, method) and (type, request, status_class) |
| `PromMiddleware.ServeFunc` | prom/handler.go:74-76 | `HandlerFunc.ServeHTTP` panics exactly when the function panics; otherwise it hands back the function's name and status unchanged |
| `PromMiddleware.AsHandler` | prom/handler.go:67-76 | a `HandlerFunc` used as a `Handler` answers every request exactly as the function does |
| `PromMiddleware.ServedKeyLabels` | prom/handler.go:15-28 | in a middleware observation, label "request" is the name the handler returned (nothing from the URL) and "method" exactly the request method |
| `PromMiddleware.PromWrapper.ServeHTTP` | prom/handler.go:13-30 | reports a panic exactly when the handler panics. When the handler returns, the call appends exactly the elapsed time under (class(status), name, method) of the single handler result. When it panics, the request summary is unchanged. The wrapper itself writes nothing to the dependency summary |
| `PromMiddleware.PromWrapper.constructor` | prom/handler.go:8-10 | the wrapper stores the given handler |
| `PromMiddleware.Prom` | prom/handler.go:33-37 | returns a new wrapper whose stored handler is `h` itself |
| `PromMiddleware.PromFunc` | prom/handler.go:40-58 | same as `ServeHTTP`, panic case included, for a plain function reached through the `HandlerFunc` adapter |
| `PromMiddleware.NilHandlersRecordNothing` | prom/handler.go:13-58 | serving with `Prom(nil)` or `PromFunc(nil)` panics and leaves the request summary unchanged |
| `PromMiddleware.PromFuncMatchesProm` | prom/handler.go:40-58 | `PromFunc(f)` and `Prom(HandlerFunc(f))` leave equal summaries from equal summaries |
| `PromMiddleware.HealthCheckObservedOnce` | prom/handler.go:13-30 | a handler answering ("/health", 200) to a GET with a query string adds exactly one observation, and `elapsed` to the sum, under ("2xx", "/health", "GET") |

## Left out

- PromTracking.Track, PromMiddleware.PromWrapper.ServeHTTP, PromMiddleware.PromFunc: in the model the wrapped handler has no effects of its own. It writes to neither summary, so it cannot call `TrackDependency` or serve a nested wrapped handler. It also leaves the request alone: the method and URI the wrapper reads after the call are the ones passed in. The frame clauses and the exactly-one-append clauses therefore describe only what the wrapper itself writes. In Go a handler that records metrics adds its own observations as well, and a handler that rewrites `r.Method` or `r.RequestURI` changes the labels.
- Go strings are byte strings. The model treats them as sequences of characters. Splitting on the ASCII `?` gives the same fields either way.
- The goroutine gauge and the background loop in `init` (prom/prom.go:49-68): an unending goroutine that reads the runtime and sleeps, which is concurrency and I/O.
- `prometheus.NewSummaryVec`, `NewGauge`, `MustRegister` and the help strings: foreign library calls. Only the names and label-name lists are kept, as constants. The panic on double registration is not modelled.
- Wall-clock timing (`time.Now`, `time.Since(...).Seconds()`) and `float64`: durations are abstract `nat` ticks given to each method.
- Quantile estimation inside a Prometheus summary: a summary child is modelled as the full sequence of its observations, from which count and sum are read.
- `http.ResponseWriter`, `httprouter.Params` and the transport: the wrappers never read them. The wrapped handler is a function of the method and the request URI that returns a value or panics; what a panic carries is not modelled.
- PromMiddleware.PromWrapper.ServeHTTP, PromMiddleware.PromFunc, PromTracking.Track: "the inner handler is called exactly once" is not stated, because the model's handler is a function and cannot count its calls. What is proved is that the one recorded key, or the panic, comes from a single handler result.
- Concurrent use of the shared summaries: thread safety belongs to the metrics library, and the model is sequential. For N observations in sequence, `RecordAllTotal` and `RecordAllCount` give the total and the per-key counts. No member runs a series of wrapper calls, because the source has no such loop.
- A dependency-call wrapper that times a function and labels Success or Failure by its error is not part of this model. The modelled source has only the manual recorder `TrackDependency`.
