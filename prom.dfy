/** prom/prom.go: the router wrapper `Track` and the manual dependency
    recorder `TrackDependency`, over an explicit registry of the two
    summaries. */
module PromTracking {
  import opened Strings
  import opened Status
  import opened Metrics

  /** Dependency types callers are expected to use. */
  const DependencyHTTP: string := "HTTP"
  const DependencyRedis: string := "Redis"
  const DependencyDB: string := "DB"

  /** The parts of an `*http.Request` the wrappers read. */
  datatype Request = Request(httpMethod: string, requestURI: string)

  /** How a call of a wrapped handler ends: it returns a value, or it panics
      (calling a nil handler panics too), and the panic unwinds through the
      wrapper to its caller. */
  datatype Call<T> = Returned(value: T) | Panicked

  /** An `httprouter`-style handler: what it returns is the status code. Its
      writes to the response and its path parameters are not modelled. */
  type Handle = Request -> Call<int>

  /** `Track(nil)`: the handler whose every call panics. */
  const NilHandle: Handle := r => Panicked

  /** The request label `Track` derives: the first field of
      `strings.Split(uri, "?")`, or "" when there is none. It is the part of
      the URI before its first `?`, and the whole URI when it has none. */
  function RequestLabel(uri: string): (req: string)
    ensures req <= uri
    ensures '?' !in req
    ensures '?' !in uri ==> req == uri
    ensures '?' in uri ==> |req| < |uri| && uri[|req|] == '?'
  {
    var strs := Split(uri, '?');
    JoinHead(strs, '?');
    if |strs| > 0 then strs[0] else ""
  }

  /** The key `Track` records under for a status code and a request. */
  function TrackKey(status: int, r: Request): Key
  {
    (Classify(status), RequestLabel(r.requestURI), r.httpMethod)
  }

  /** The labels of a `Track` observation: status class, request label and
      method, by name. */
  lemma TrackKeyLabels(status: int, r: Request)
    ensures Lookup(HttpLabelNames, Values(TrackKey(status, r)), "status_class") == Some(Classify(status))
    ensures Lookup(HttpLabelNames, Values(TrackKey(status, r)), "request") == Some(RequestLabel(r.requestURI))
    ensures Lookup(HttpLabelNames, Values(TrackKey(status, r)), "method") == Some(r.httpMethod)
  {
  }

  /** One call of the handler `Track(h)` returns, on request `r`, taking
      `elapsed` ticks. The inner handler runs first: when it returns a status,
      one observation of `elapsed` is made under (class of the status, URI
      before `?`, method) and the wrapper itself writes nothing else; when it panics, the panic
      propagates before the switch and nothing is recorded. */
  method Track(reg: Registry, h: Handle, r: Request, elapsed: nat) returns (panicked: bool)
    requires reg.Valid()
    modifies reg.requestTime
    ensures panicked <==> h(r).Panicked?
    ensures h(r).Returned? ==>
      reg.requestTime.samples == Append(old(reg.requestTime.samples), TrackKey(h(r).value, r), elapsed)
      && Total(reg.requestTime.samples) == Total(old(reg.requestTime.samples)) + 1
    ensures h(r).Panicked? ==> reg.requestTime.samples == old(reg.requestTime.samples)
    ensures reg.dependencyTime.samples == old(reg.dependencyTime.samples)
  {
    var call := h(r);
    if call.Panicked? {
      return true;
    }
    panicked := false;
    var status := call.value;
    var httpMethod := r.httpMethod;
    var strs := Split(r.requestURI, '?');
    var req := "";
    if |strs| > 0 {
      req := strs[0];
    }
    ghost var key := TrackKey(status, r);
    AppendTotal(reg.requestTime.samples, key, elapsed);
    if status >= 500 {
      assert key == ("5xx", req, httpMethod);
      reg.requestTime.Observe(("5xx", req, httpMethod), elapsed);
    } else if status >= 400 {
      assert key == ("4xx", req, httpMethod);
      reg.requestTime.Observe(("4xx", req, httpMethod), elapsed);
    } else if status >= 300 {
      assert key == ("3xx", req, httpMethod);
      reg.requestTime.Observe(("3xx", req, httpMethod), elapsed);
    } else if status >= 200 {
      assert key == ("2xx", req, httpMethod);
      reg.requestTime.Observe(("2xx", req, httpMethod), elapsed);
    } else {
      assert key == ("2xx", req, httpMethod);
      reg.requestTime.Observe(("2xx", req, httpMethod), elapsed);
    }
  }

  /** Serving a request with `Track(nil)` panics and records nothing. */
  method NilTrackRecordsNothing(reg: Registry, r: Request, elapsed: nat) returns (panicked: bool)
    requires reg.Valid()
    modifies reg.requestTime
    ensures panicked
    ensures reg.requestTime.samples == old(reg.requestTime.samples)
  {
    panicked := Track(reg, NilHandle, r, elapsed);
  }

  /** `TrackDependency(dep, req, status, v)`: one observation of `v` under
      (dep, req, status) in that order; `status` is any string. */
  method TrackDependency(reg: Registry, dep: string, req: string, status: string, v: nat)
    requires reg.Valid()
    modifies reg.dependencyTime
    ensures reg.dependencyTime.samples == Append(old(reg.dependencyTime.samples), (dep, req, status), v)
    ensures Total(reg.dependencyTime.samples) == Total(old(reg.dependencyTime.samples)) + 1
    ensures reg.requestTime.samples == old(reg.requestTime.samples)
  {
    AppendTotal(reg.dependencyTime.samples, (dep, req, status), v);
    reg.dependencyTime.Observe((dep, req, status), v);
  }
}
