/** prom/handler.go: the middleware `Prom` and `PromFunc`, which take the
    request label from the wrapped handler, and the `HandlerFunc` adapter. */
module PromMiddleware {
  import opened Status
  import opened Metrics
  import opened PromTracking

  /** What a wrapped handler returns: the request name and the status code. */
  datatype Served = Served(name: string, status: int)

  /** A value implementing the `Handler` interface, seen through its one
      method `ServeHTTP`, which returns or panics. The response writer is not
      modelled. */
  datatype Handler = Handler(serveHTTP: Request -> Call<Served>)

  /** An ordinary function with the shape of `Handler.ServeHTTP`. */
  type HandlerFunc = Request -> Call<Served>

  /** A nil `Handler` or `HandlerFunc`: every call panics. */
  const NilHandler: Handler := Handler(r => Panicked)
  const NilHandlerFunc: HandlerFunc := r => Panicked

  /** `HandlerFunc.ServeHTTP`: calls the function and hands back its name and
      status unchanged, or lets its panic through. */
  function ServeFunc(f: HandlerFunc, r: Request): (res: Call<Served>)
    ensures res.Panicked? <==> f(r).Panicked?
    ensures res.Returned? ==> res.value.name == f(r).value.name && res.value.status == f(r).value.status
  {
    f(r)
  }

  /** `HandlerFunc(f)` used as a `Handler`. */
  function AsHandler(f: HandlerFunc): (h: Handler)
    ensures forall r :: h.serveHTTP(r) == f(r)
  {
    Handler(r => ServeFunc(f, r))
  }

  /** The key the middleware records under: the status class of the returned
      status, the returned name (nothing taken from the URL), the method. */
  function ServedKey(res: Served, r: Request): Key
  {
    (Classify(res.status), res.name, r.httpMethod)
  }

  /** The labels of a middleware observation, by name. */
  lemma ServedKeyLabels(res: Served, r: Request)
    ensures Lookup(HttpLabelNames, Values(ServedKey(res, r)), "status_class") == Some(Classify(res.status))
    ensures Lookup(HttpLabelNames, Values(ServedKey(res, r)), "request") == Some(res.name)
    ensures Lookup(HttpLabelNames, Values(ServedKey(res, r)), "method") == Some(r.httpMethod)
  {
  }

  /** The `prom` struct: the wrapped handler. */
  class PromWrapper {
    const h: Handler

    constructor (h: Handler)
      ensures this.h == h
    {
      this.h := h;
    }

    /** `(*prom).ServeHTTP`: calls the wrapped handler; when it returns,
        records one observation of `elapsed` under (class of its status, its
        name, method); when it panics, records nothing. */
    method ServeHTTP(reg: Registry, r: Request, elapsed: nat) returns (panicked: bool)
      requires reg.Valid()
      modifies reg.requestTime
      ensures panicked <==> h.serveHTTP(r).Panicked?
      ensures h.serveHTTP(r).Returned? ==>
        reg.requestTime.samples == Append(old(reg.requestTime.samples), ServedKey(h.serveHTTP(r).value, r), elapsed)
        && Total(reg.requestTime.samples) == Total(old(reg.requestTime.samples)) + 1
      ensures h.serveHTTP(r).Panicked? ==> reg.requestTime.samples == old(reg.requestTime.samples)
      ensures reg.dependencyTime.samples == old(reg.dependencyTime.samples)
    {
      var call := h.serveHTTP(r);
      if call.Panicked? {
        return true;
      }
      panicked := false;
      var res := call.value;
      var name, status := res.name, res.status;
      var httpMethod := r.httpMethod;
      ghost var key := ServedKey(res, r);
      AppendTotal(reg.requestTime.samples, key, elapsed);
      if status >= 500 {
        assert key == (Label5xx, name, httpMethod);
        reg.requestTime.Observe((Label5xx, name, httpMethod), elapsed);
      } else if status >= 400 {
        assert key == (Label4xx, name, httpMethod);
        reg.requestTime.Observe((Label4xx, name, httpMethod), elapsed);
      } else if status >= 300 {
        assert key == (Label3xx, name, httpMethod);
        reg.requestTime.Observe((Label3xx, name, httpMethod), elapsed);
      } else if status >= 200 {
        assert key == (Label2xx, name, httpMethod);
        reg.requestTime.Observe((Label2xx, name, httpMethod), elapsed);
      } else {
        assert key == (Label2xx, name, httpMethod);
        reg.requestTime.Observe((Label2xx, name, httpMethod), elapsed);
      }
    }
  }

  /** `Prom(h)`: a new wrapper around `h` itself. */
  method Prom(h: Handler) returns (p: PromWrapper)
    ensures fresh(p) && p.h == h
  {
    p := new PromWrapper(h);
  }

  /** One call of the function `PromFunc(h)` returns, on request `r`, taking
      `elapsed` ticks: as `ServeHTTP`, through the `HandlerFunc` adapter. */
  method PromFunc(h: HandlerFunc, reg: Registry, r: Request, elapsed: nat) returns (panicked: bool)
    requires reg.Valid()
    modifies reg.requestTime
    ensures panicked <==> h(r).Panicked?
    ensures h(r).Returned? ==>
      reg.requestTime.samples == Append(old(reg.requestTime.samples), ServedKey(h(r).value, r), elapsed)
      && Total(reg.requestTime.samples) == Total(old(reg.requestTime.samples)) + 1
    ensures h(r).Panicked? ==> reg.requestTime.samples == old(reg.requestTime.samples)
    ensures reg.dependencyTime.samples == old(reg.dependencyTime.samples)
  {
    var call := ServeFunc(h, r);
    if call.Panicked? {
      return true;
    }
    panicked := false;
    var res := call.value;
    var name, status := res.name, res.status;
    var httpMethod := r.httpMethod;
    ghost var key := ServedKey(res, r);
    AppendTotal(reg.requestTime.samples, key, elapsed);
    if status >= 500 {
      assert key == (Label5xx, name, httpMethod);
      reg.requestTime.Observe((Label5xx, name, httpMethod), elapsed);
    } else if status >= 400 {
      assert key == (Label4xx, name, httpMethod);
      reg.requestTime.Observe((Label4xx, name, httpMethod), elapsed);
    } else if status >= 300 {
      assert key == (Label3xx, name, httpMethod);
      reg.requestTime.Observe((Label3xx, name, httpMethod), elapsed);
    } else if status >= 200 {
      assert key == (Label2xx, name, httpMethod);
      reg.requestTime.Observe((Label2xx, name, httpMethod), elapsed);
    } else {
      assert key == (Label2xx, name, httpMethod);
      reg.requestTime.Observe((Label2xx, name, httpMethod), elapsed);
    }
  }

  /** `PromFunc(f)` and `Prom(HandlerFunc(f))` record the same thing: run on
      two registries in the same state, they leave them in the same state. */
  method PromFuncMatchesProm(f: HandlerFunc, reg1: Registry, reg2: Registry, r: Request, elapsed: nat)
    requires reg1.Valid() && reg2.Valid()
    requires reg1.requestTime != reg2.requestTime
    requires reg1.requestTime.samples == reg2.requestTime.samples
    modifies reg1.requestTime, reg2.requestTime
    ensures reg1.requestTime.samples == reg2.requestTime.samples
  {
    var _ := PromFunc(f, reg1, r, elapsed);
    var p := Prom(AsHandler(f));
    var _ := p.ServeHTTP(reg2, r, elapsed);
  }

  /** Serving a request with `Prom(nil)` or `PromFunc(nil)` panics and
      records nothing. */
  method NilHandlersRecordNothing(reg: Registry, r: Request, elapsed: nat)
    returns (panicked1: bool, panicked2: bool)
    requires reg.Valid()
    modifies reg.requestTime
    ensures panicked1 && panicked2
    ensures reg.requestTime.samples == old(reg.requestTime.samples)
  {
    var p := Prom(NilHandler);
    panicked1 := p.ServeHTTP(reg, r, elapsed);
    panicked2 := PromFunc(NilHandlerFunc, reg, r, elapsed);
  }

  /** A handler that always answers ("/health", 200), asked once with a query
      string in its URI: the ("2xx", "/health", "GET") child gains exactly one
      observation and its sum grows by the elapsed time. */
  method HealthCheckObservedOnce(reg: Registry, elapsed: nat)
    requires reg.Valid()
    modifies reg.requestTime
    ensures |Samples(reg.requestTime.samples, ("2xx", "/health", "GET"))|
         == |Samples(old(reg.requestTime.samples), ("2xx", "/health", "GET"))| + 1
    ensures Sum(Samples(reg.requestTime.samples, ("2xx", "/health", "GET")))
         == Sum(Samples(old(reg.requestTime.samples), ("2xx", "/health", "GET"))) + elapsed
  {
    var p := Prom(Handler(r => Returned(Served("/health", 200))));
    ghost var before := reg.requestTime.samples;
    var _ := p.ServeHTTP(reg, Request("GET", "/health?verbose=1"), elapsed);
    SumAppend(Samples(before, ("2xx", "/health", "GET")), elapsed);
  }
}
