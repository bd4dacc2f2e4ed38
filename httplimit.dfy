/** The HTTP side of concurrentlimit.go: the limiting Handler wrapper, the
    validation and defaults applied by limitListenerForServer, and
    ListenAndServe / ListenAndServeTLS. Opening the socket (net.Listen), the
    connection gate (netutil.LimitListener) and serving are opaque steps. */
module HttpLimit {
  import opened GoLib
  import opened Protocols
  import opened AdmissionCounter
  import opened ConcurrentLimit

  /** time.Minute, in nanoseconds (time.Duration's unit). */
  const Minute: int := 60 * 1_000_000_000
  const HttpIdleTimeout: int := Minute
  const HttpReadHeaderTimeout: int := Minute

  /** A timeout that is not positive is replaced by the default. */
  function DefaultTimeout(t: int, default: int): int
  {
    if t <= 0 then default else t
  }

  /** An unset (non-positive) timeout becomes the default, a set one is kept,
      and applying the step twice is the same as applying it once. */
  lemma DefaultTimeoutSpec(t: int, default: int)
    ensures t > 0 ==> DefaultTimeout(t, default) == t
    ensures t <= 0 ==> DefaultTimeout(t, default) == default
    ensures default > 0 ==> DefaultTimeout(t, default) > 0
    ensures default > 0 ==> DefaultTimeout(DefaultTimeout(t, default), default) == DefaultTimeout(t, default)
  {
  }

  /** The http.Handler values the model tells apart: the caller's handler,
      a nil handler (the zero http.Server's, which net/http reads as
      http.DefaultServeMux), DefaultServeMux itself, or the wrapper
      Handler(limiter, inner) returns. */
  datatype HttpHandler =
    | AppHandler(id: nat)
    | NilHandler
    | DefaultServeMux
    | LimitedHandler(limiter: Limiter, inner: HttpHandler)

  /** Handler(limiter, handler): wraps the handler; serving the result is
      ServeLimited. */
  function Handler(limiter: Limiter, handler: HttpHandler): (h: HttpHandler)
    ensures h.LimitedHandler?
    ensures h.limiter == limiter && h.inner == handler
  {
    LimitedHandler(limiter, handler)
  }

  /** How the wrapped handler's ServeHTTP ends. */
  datatype Exit = Returns | Panics

  /** How a call of `inner.ServeHTTP` ends, when the handler itself would end
      as `exit`: a method call on a nil handler panics. */
  function ServeExit(inner: HttpHandler, exit: Exit): Exit
  {
    if inner.NilHandler? then Panics else exit
  }

  /** What the wrapper does with Start's result: ErrLimited is answered
      with 429 and the error's text, any other error with a generic 500, and
      only an admission (None) goes on to the wrapped handler. */
  function Admission(r: StartResult): (reply: Option<HttpReply>)
    ensures reply.None? <==> r.Admitted?
    ensures r == Refused(ErrLimited) ==> reply == Some(ErrorReply(StatusTooManyRequests, TextOf(ErrLimited)))
    ensures r.Refused? && r.err != ErrLimited ==> reply == Some(ErrorReply(StatusInternalServerError, Text("Internal Server Error")))
  {
    match r
    case Refused(ErrLimited) => Some(ErrorReply(StatusTooManyRequests, TextOf(ErrLimited)))
    case Refused(_) => Some(ErrorReply(StatusInternalServerError, Text("Internal Server Error")))
    case Admitted(_) => None
  }

  /** One request through the wrapper `h` that Handler returned, with
      `exit` saying how the wrapped handler ends when it is not nil.
      `calls` counts the invocations of the wrapped handler. The release is
      NOT deferred: when the wrapped handler panics, a nil one included, the
      slot stays taken for good. */
  method ServeLimited(h: HttpHandler, exit: Exit) returns (reply: HttpReply, calls: nat, ghost token: nat)
    requires h.LimitedHandler? && Valid(h.limiter)
    modifies Footprint(h.limiter)
    ensures Valid(h.limiter)
    ensures h.limiter.Unlimited? ==> calls == 1 && reply == (if ServeExit(h.inner, exit).Returns? then Written else Aborted)
    ensures h.limiter.Bounded? ==>
      var s := h.limiter.sync;
      var e := ServeExit(h.inner, exit);
      if Admits(old(s.State())) then
        && calls == 1
        && (e.Returns? ==> reply == Written && s.State() == old(s.State()) && s.live == old(s.live))
        && (e.Panics? ==> reply == Aborted && s.current == old(s.current) + 1 &&
                          token !in old(s.live) && s.live == old(s.live) + {token})
      else
        && calls == 0
        && reply == ErrorReply(StatusTooManyRequests, TextOf(ErrLimited))
        && s.State() == old(s.State()) && s.live == old(s.live)
  {
    var r;
    r, token := Start(h.limiter);
    var rejected := Admission(r);
    if rejected.Some? {
      return rejected.value, 0, token;
    }
    calls := 1;
    if ServeExit(h.inner, exit).Panics? {
      return Aborted, calls, token;
    }
    var fatal := Invoke(r.end, token);
    assert !fatal;
    reply := Written;
  }

  /** The validation limitListenerForServer and NewServerWithInterceptors do
      before opening any socket: a positive request limit, and a
      connection limit at least as large. */
  function CheckLimits(caller: string, requestLimit: int, connectionLimit: int): (err: Option<Error>)
    ensures err.None? <==> requestLimit > 0 && connectionLimit >= requestLimit
    ensures requestLimit <= 0 ==> err == Some(Errorf(caller + ": requestLimit=" + Itoa(requestLimit) + " must be > 0"))
  {
    if requestLimit <= 0 then
      Some(Errorf(caller + ": requestLimit=" + Itoa(requestLimit) + " must be > 0"))
    else if connectionLimit < requestLimit then
      Some(Errorf(caller + ": connectionLimit=" + Itoa(connectionLimit) + " must be >= requestLimit=" + Itoa(requestLimit)))
    else None
  }

  /** netutil.LimitListener(net.Listen("tcp", addr), connectionLimit). */
  datatype Listener = LimitListener(addr: string, connectionLimit: int)

  /** The fields of an http.Server that the core reads or writes. */
  class HttpServer {
    const addr: string
    var readHeaderTimeout: int
    var idleTimeout: int
    var handler: HttpHandler

    constructor (addr: string, readHeaderTimeout: int, idleTimeout: int, handler: HttpHandler)
      ensures this.addr == addr && this.readHeaderTimeout == readHeaderTimeout
      ensures this.idleTimeout == idleTimeout && this.handler == handler
    {
      this.addr := addr;
      this.readHeaderTimeout := readHeaderTimeout;
      this.idleTimeout := idleTimeout;
      this.handler := handler;
    }
  }

  /** limitListenerForServer. `listenOk` is whether net.Listen succeeds;
      `listened` records whether it was called at all. Invalid limits are
      reported before listening and leave the server untouched; a listen
      failure also leaves it untouched, because the defaults and the wrapper
      are installed only after the socket is open. */
  method LimitListenerForServer(srv: HttpServer, requestLimit: int, connectionLimit: int, listenOk: bool)
    returns (r: Res<Listener>, listened: bool)
    modifies srv
    ensures listened <==> CheckLimits("ListenAndServe", requestLimit, connectionLimit).None?
    ensures !listened ==> r == Err(CheckLimits("ListenAndServe", requestLimit, connectionLimit).value)
    ensures listened && !listenOk ==> r == Err(ListenError(srv.addr))
    ensures !(listened && listenOk) ==> unchanged(srv)
    ensures listened && listenOk ==>
      && r == Ok(LimitListener(srv.addr, connectionLimit))
      && srv.readHeaderTimeout == DefaultTimeout(old(srv.readHeaderTimeout), HttpReadHeaderTimeout)
      && srv.idleTimeout == DefaultTimeout(old(srv.idleTimeout), HttpIdleTimeout)
      && srv.handler.LimitedHandler? && srv.handler.inner == old(srv.handler)
      && srv.handler.limiter.Bounded? && fresh(srv.handler.limiter.sync)
      && srv.handler.limiter.sync.State() == Initial(requestLimit)
      && Valid(srv.handler.limiter)
  {
    var invalid := CheckLimits("ListenAndServe", requestLimit, connectionLimit);
    if invalid.Some? {
      return Err(invalid.value), false;
    }
    listened := true;
    if !listenOk {
      return Err(ListenError(srv.addr)), listened;
    }
    var limitedListener := LimitListener(srv.addr, connectionLimit);

    if srv.readHeaderTimeout <= 0 {
      srv.readHeaderTimeout := HttpReadHeaderTimeout;
    }
    if srv.idleTimeout <= 0 {
      srv.idleTimeout := HttpIdleTimeout;
    }

    var limiter := New(requestLimit);
    srv.handler := Handler(limiter.value, srv.handler);
    r := Ok(limitedListener);
  }

  /** The call ListenAndServe or ListenAndServeTLS hands over to net/http. */
  datatype ServeCall = Serve(listener: Listener) | ServeTLS(listener: Listener, certFile: string, keyFile: string)

  /** ListenAndServe: the listener error, or serving on the limited listener. */
  method ListenAndServe(srv: HttpServer, requestLimit: int, connectionLimit: int, listenOk: bool)
    returns (r: Res<ServeCall>)
    modifies srv
    ensures CheckLimits("ListenAndServe", requestLimit, connectionLimit).Some? ==>
      r == Err(CheckLimits("ListenAndServe", requestLimit, connectionLimit).value) && unchanged(srv)
    ensures CheckLimits("ListenAndServe", requestLimit, connectionLimit).None? ==>
      r == if listenOk then Ok(Serve(LimitListener(srv.addr, connectionLimit))) else Err(ListenError(srv.addr))
    ensures !listenOk ==> unchanged(srv)
    ensures CheckLimits("ListenAndServe", requestLimit, connectionLimit).None? && listenOk ==>
      && srv.readHeaderTimeout == DefaultTimeout(old(srv.readHeaderTimeout), HttpReadHeaderTimeout)
      && srv.idleTimeout == DefaultTimeout(old(srv.idleTimeout), HttpIdleTimeout)
      && srv.handler.LimitedHandler? && srv.handler.inner == old(srv.handler)
      && srv.handler.limiter.Bounded? && fresh(srv.handler.limiter.sync)
      && srv.handler.limiter.sync.State() == Initial(requestLimit)
      && Valid(srv.handler.limiter)
  {
    var l, listened := LimitListenerForServer(srv, requestLimit, connectionLimit, listenOk);
    if l.Err? {
      return Err(l.error);
    }
    r := Ok(Serve(l.value));
  }

  /** ListenAndServeTLS: as ListenAndServe, serving TLS with the given files. */
  method ListenAndServeTLS(srv: HttpServer, certFile: string, keyFile: string, requestLimit: int, connectionLimit: int, listenOk: bool)
    returns (r: Res<ServeCall>)
    modifies srv
    ensures CheckLimits("ListenAndServe", requestLimit, connectionLimit).Some? ==>
      r == Err(CheckLimits("ListenAndServe", requestLimit, connectionLimit).value) && unchanged(srv)
    ensures CheckLimits("ListenAndServe", requestLimit, connectionLimit).None? ==>
      r == if listenOk then Ok(ServeTLS(LimitListener(srv.addr, connectionLimit), certFile, keyFile)) else Err(ListenError(srv.addr))
    ensures !listenOk ==> unchanged(srv)
    ensures CheckLimits("ListenAndServe", requestLimit, connectionLimit).None? && listenOk ==>
      && srv.readHeaderTimeout == DefaultTimeout(old(srv.readHeaderTimeout), HttpReadHeaderTimeout)
      && srv.idleTimeout == DefaultTimeout(old(srv.idleTimeout), HttpIdleTimeout)
      && srv.handler.LimitedHandler? && srv.handler.inner == old(srv.handler)
      && srv.handler.limiter.Bounded? && fresh(srv.handler.limiter.sync)
      && srv.handler.limiter.sync.State() == Initial(requestLimit)
      && Valid(srv.handler.limiter)
  {
    var l, listened := LimitListenerForServer(srv, requestLimit, connectionLimit, listenOk);
    if l.Err? {
      return Err(l.error);
    }
    r := Ok(ServeTLS(l.value, certFile, keyFile));
  }

  /** The end-to-end HTTP scenario: capacity `permitted`, `permitted + 1`
      requests all blocked inside the handler at once. Exactly `permitted`
      are admitted (and get 200 once unblocked) and one gets 429; once all
      have finished, every retried request is admitted again. */
  method BlockedRequestsScenario(permitted: int) returns (ok: nat, tooMany: nat, retriedOk: nat)
    requires permitted > 0
    ensures ok == permitted && tooMany == 1 && retriedOk == permitted + 1
  {
    var o := New(permitted);
    var limiter := o.value;
    var s := limiter.sync;
    ok, tooMany := 0, 0;
    var admitted: seq<Release> := [];
    ghost var tokens: seq<nat> := [];
    var i := 0;
    while i < permitted + 1
      invariant 0 <= i <= permitted + 1 && Valid(limiter)
      invariant ok == |admitted| == |tokens| && ok + tooMany == i
      invariant s.current == ok && ok == (if i <= permitted then i else permitted)
      invariant forall k :: 0 <= k < |admitted| ==> admitted[k] == EndOf(s)
      invariant forall k :: 0 <= k < |tokens| ==> tokens[k] in s.live
      invariant forall j, k :: 0 <= j < k < |tokens| ==> tokens[j] != tokens[k]
    {
      var r, token := Start(limiter);
      match Admission(r) {
        case None =>
          admitted, tokens := admitted + [r.end], tokens + [token];
          ok := ok + 1;
        case Some(reply) =>
          tooMany := tooMany + if reply.ErrorReply? && reply.status == StatusTooManyRequests then 1 else 0;
      }
      i := i + 1;
    }
    // the handlers unblock and every admitted request releases its slot
    var k := 0;
    while k < |admitted|
      invariant 0 <= k <= |admitted| && Valid(limiter)
      invariant s.current == |admitted| - k
      invariant forall m :: k <= m < |tokens| ==> tokens[m] in s.live
      invariant forall j, m :: 0 <= j < m < |tokens| ==> tokens[j] != tokens[m]
    {
      var fatal := Invoke(admitted[k], tokens[k]);
      k := k + 1;
    }
    retriedOk := 0;
    var h := Handler(limiter, AppHandler(0));
    for j := 0 to permitted + 1
      invariant retriedOk == j && Valid(limiter) && s.current == 0
    {
      var reply, calls, token := ServeLimited(h, Returns);
      retriedOk := retriedOk + if reply == Written then 1 else 0;
    }
  }

  /** The code as written on a zero http.Server, whose handler is nil:
      limitListenerForServer wraps the nil handler, every admitted request
      panics calling it before its release, and once `limit` requests have
      been served every later one is answered 429, though none is in
      flight. */
  method NilHandlerLeaks(limit: int) returns (aborted: nat, afterwards: HttpReply)
    requires limit > 0
    ensures aborted == limit
    ensures afterwards == ErrorReply(StatusTooManyRequests, TextOf(ErrLimited))
  {
    var srv := new HttpServer("", 0, 0, NilHandler);
    var l, listened := LimitListenerForServer(srv, limit, limit, true);
    var h := srv.handler;
    var s := h.limiter.sync;
    aborted := 0;
    for i := 0 to limit
      invariant aborted == i && Valid(h.limiter) && s.State() == Counter(limit, i)
    {
      var reply, calls, token := ServeLimited(h, Returns);
      aborted := aborted + if reply == Aborted then 1 else 0;
    }
    var calls;
    ghost var token;
    afterwards, calls, token := ServeLimited(h, Returns);
  }

  /** What a nil handler evidently should mean inside the wrapper: the
      handler net/http itself would use, DefaultServeMux. The result is never
      nil, so it ends exactly as the handler does. */
  function DefaultedHandler(handler: HttpHandler): (d: HttpHandler)
    ensures !d.NilHandler?
    ensures handler.NilHandler? ==> d == DefaultServeMux
    ensures !handler.NilHandler? ==> d == handler
    ensures forall exit :: ServeExit(d, exit) == exit
  {
    if handler.NilHandler? then DefaultServeMux else handler
  }

  /** With the nil handler defaulted before it is wrapped, a limiter of
      capacity `limit` serves any number of sequential requests and never
      leaks a slot. */
  method DefaultedHandlerServes(limit: int, n: nat) returns (written: nat)
    requires limit > 0
    ensures written == n
  {
    var o := New(limit);
    var h := Handler(o.value, DefaultedHandler(NilHandler));
    var s := h.limiter.sync;
    written := 0;
    for i := 0 to n
      invariant written == i && Valid(h.limiter) && s.State() == Initial(limit)
    {
      var reply, calls, token := ServeLimited(h, Returns);
      written := written + if reply == Written then 1 else 0;
    }
  }
}
