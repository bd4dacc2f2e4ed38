/** sleepyserver/sleepyserver.go: the program's own copy of the limiter
    (concurrentLimiter, nilLimiter, errLimited), the limiter choice in main,
    and the request paths that run through it. */
module SleepyServer {
  import opened GoLib
  import opened Protocols
  import opened AdmissionCounter
  import opened MaxLogger
  import opened SleepService

  /** concurrentLimiter: the same admission counter as the library's
      syncLimiter, with the error errLimited. */
  class ConcurrentLimiter {
    const max: int
    var current: int

    function State(): Counter
      reads this
    {
      Counter(max, current)
    }

    ghost predicate Valid()
      reads this
    {
      Within(State())
    }

    /** A fresh concurrentLimiter with the given max and nothing in flight. */
    constructor (limit: int)
      requires limit > 0
      ensures State() == Initial(limit) && Valid()
    {
      max := limit;
      current := 0;
    }

    /** start: admits iff current + 1 <= max, otherwise errLimited with no
        change. */
    method Start() returns (r: Res<EndFunc>)
      modifies this
      ensures State() == AfterStart(old(State()))
      ensures r == if Admits(old(State())) then Ok(EndOf(this)) else Err(SleepyErrLimited)
      ensures old(Valid()) ==> Valid()
    {
      var next := current + 1;
      if next > max {
        return Err(SleepyErrLimited);
      }
      current := next;
      r := Ok(EndOf(this));
    }

    /** end: `fatal` is the panic "bug: mismatched calls to start/end". */
    method End() returns (fatal: bool)
      modifies this
      ensures State() == AfterEnd(old(State()))
      ensures fatal == EndPanics(old(State()))
      ensures old(Valid()) && old(current) > 0 ==> !fatal && Valid()
    {
      current := current - 1;
      fatal := current < 0;
    }
  }

  /** The func() start hands back. */
  datatype EndFunc = EndOf(limiter: ConcurrentLimiter) | DoNothing

  /** The `limiter` interface: the bounded limiter or a nilLimiter. */
  datatype Limiter = Concurrent(c: ConcurrentLimiter) | NilLimiter

  function LimiterFootprint(l: Limiter): set<object>
  {
    if l.Concurrent? then {l.c} else {}
  }

  /** The server struct: the logger (a value in Go, so never shared) and
      the limiter. */
  class Server {
    const logger: ConcurrentMaxLogger
    var limiter: Limiter

    ghost predicate Valid()
      reads this, logger, LimiterFootprint(limiter)
    {
      logger.Valid() && (limiter.Concurrent? ==> limiter.c.Valid())
    }

    constructor (logger: ConcurrentMaxLogger, limiter: Limiter)
      ensures this.logger == logger && this.limiter == limiter
    {
      this.logger := logger;
      this.limiter := limiter;
    }
  }

  /** The server main builds: the unbounded limiter, replaced by a bounded
      one of capacity `concurrentRequests` iff that flag is positive. */
  method SetUpServer(concurrentRequests: int) returns (s: Server)
    ensures fresh(s) && fresh(s.logger) && s.logger.State() == Peak(0, 0)
    ensures concurrentRequests <= 0 ==> s.limiter == NilLimiter
    ensures concurrentRequests > 0 ==> s.limiter.Concurrent? && fresh(s.limiter.c) && s.limiter.c.State() == Initial(concurrentRequests)
    ensures s.Valid()
  {
    var logger := new ConcurrentMaxLogger();
    s := new Server(logger, NilLimiter);
    if concurrentRequests > 0 {
      var c := new ConcurrentLimiter(concurrentRequests);
      s.limiter := Concurrent(c);
    }
  }

  /** limiter.start() through the interface; nilLimiter always admits. */
  method StartLimiter(l: Limiter) returns (r: Res<EndFunc>)
    modifies LimiterFootprint(l)
    ensures l.NilLimiter? ==> r == Ok(DoNothing)
    ensures l.Concurrent? ==>
      && l.c.State() == AfterStart(old(l.c.State()))
      && r == (if Admits(old(l.c.State())) then Ok(EndOf(l.c)) else Err(SleepyErrLimited))
      && (old(l.c.Valid()) ==> l.c.Valid())
  {
    match l
    case NilLimiter =>
      r := Ok(DoNothing);
    case Concurrent(c) =>
      r := c.Start();
  }

  /** Whether this server's limiter turns a request away now. */
  ghost predicate Rejects(s: Server)
    reads s, LimiterFootprint(s.limiter)
  {
    s.limiter.Concurrent? && !Admits(s.limiter.c.State())
  }

  /** sleepImplementation: a request the limiter turns away returns
      errLimited before the logger starts or anything is allocated; an
      admitted one does SleepOutcome's work, and its two deferred ends give
      both slots back on every path, the panic of `make` included. */
  method SleepImplementation(s: Server, request: SleepRequest, protoDuration: ProtoDuration -> Option<int>)
    returns (o: Outcome<SleepResponse>)
    requires s.Valid()
    modifies s.logger, LimiterFootprint(s.limiter)
    ensures s.Valid()
    ensures s.limiter.Concurrent? ==> s.limiter.c.State() == old(s.limiter.c.State())
    ensures old(Rejects(s)) ==> o == Failed(SleepyErrLimited) && s.logger.State() == old(s.logger.State())
    ensures !old(Rejects(s)) ==>
      && o == SleepOutcome(request, protoDuration)
      && s.logger.State() == Served(old(s.logger.State()))
  {
    var end := StartLimiter(s.limiter);
    if end.Err? {
      return Failed(end.error);
    }
    // the limiter's end is deferred
    var logged := s.logger.Start();
    // the logger's end is deferred as well
    o := WasteMemory(request, protoDuration);
    var loggerFatal := s.logger.End();
    if end.value.EndOf? {
      var limiterFatal := end.value.limiter.End();
    }
  }

  /** rootHandler: a parameter error is returned before the limiter is
      consulted. */
  method RootHandler(s: Server, sleepValue: string, wasteValue: string,
                     parseDuration: string -> Option<int>, protoDuration: ProtoDuration -> Option<int>)
    returns (o: Outcome<SleepResponse>)
    requires s.Valid()
    modifies s.logger, LimiterFootprint(s.limiter)
    ensures s.Valid()
    ensures s.limiter.Concurrent? ==> s.limiter.c.State() == old(s.limiter.c.State())
    ensures ParseRequest(sleepValue, wasteValue, parseDuration).Err? ==>
      o == Failed(ParseRequest(sleepValue, wasteValue, parseDuration).error) && s.logger.State() == old(s.logger.State())
    ensures ParseRequest(sleepValue, wasteValue, parseDuration).Ok? ==>
      && o == (if old(Rejects(s)) then Failed(SleepyErrLimited) else SleepOutcome(ParseRequest(sleepValue, wasteValue, parseDuration).value, protoDuration))
      && s.logger.State() == (if old(Rejects(s)) then old(s.logger.State()) else Served(old(s.logger.State())))
  {
    var req := ParseRequest(sleepValue, wasteValue, parseDuration);
    if req.Err? {
      return Failed(req.error);
    }
    o := SleepImplementation(s, req.value, protoDuration);
  }

  /** rawRootHandler: 404 and 405 before any work; a full limiter gives 429
      (and only the limiter does); every other error 500. */
  method RawRootHandler(s: Server, path: string, httpMethod: string, sleepValue: string, wasteValue: string,
                        parseDuration: string -> Option<int>, protoDuration: ProtoDuration -> Option<int>)
    returns (reply: HttpReply)
    requires s.Valid()
    modifies s.logger, LimiterFootprint(s.limiter)
    ensures s.Valid()
    ensures s.limiter.Concurrent? ==> s.limiter.c.State() == old(s.limiter.c.State())
    ensures Route(path, httpMethod).Some? ==> reply == Route(path, httpMethod).value && s.logger.State() == old(s.logger.State())
    ensures Route(path, httpMethod).None? && ParseRequest(sleepValue, wasteValue, parseDuration).Ok? && old(Rejects(s)) ==>
      reply == ErrorReply(StatusTooManyRequests, TextOf(SleepyErrLimited)) && s.logger.State() == old(s.logger.State())
    ensures Route(path, httpMethod).None? && ParseRequest(sleepValue, wasteValue, parseDuration).Ok? && !old(Rejects(s)) ==>
      && reply == RootReply(SleepOutcome(ParseRequest(sleepValue, wasteValue, parseDuration).value, protoDuration), SleepyErrLimited)
      && s.logger.State() == Served(old(s.logger.State()))
    ensures Route(path, httpMethod).None? && ParseRequest(sleepValue, wasteValue, parseDuration).Err? ==>
      && reply == ErrorReply(StatusInternalServerError, TextOf(ParseRequest(sleepValue, wasteValue, parseDuration).error))
      && s.logger.State() == old(s.logger.State())
    ensures reply == ErrorReply(StatusTooManyRequests, TextOf(SleepyErrLimited)) ==> old(Rejects(s))
  {
    var early := Route(path, httpMethod);
    if early.Some? {
      return early.value;
    }
    var o := RootHandler(s, sleepValue, wasteValue, parseDuration, protoDuration);
    reply := RootReply(o, SleepyErrLimited);
  }

  /** The gRPC Sleep method: a full limiter is ResourceExhausted with
      errLimited's text; everything else is sleepImplementation's result. */
  method Sleep(s: Server, request: SleepRequest, protoDuration: ProtoDuration -> Option<int>)
    returns (o: Outcome<SleepResponse>)
    requires s.Valid()
    modifies s.logger, LimiterFootprint(s.limiter)
    ensures s.Valid()
    ensures s.limiter.Concurrent? ==> s.limiter.c.State() == old(s.limiter.c.State())
    ensures o == if old(Rejects(s)) then Failed(StatusError(ResourceExhausted, SleepyLimitedText)) else SleepOutcome(request, protoDuration)
    ensures s.logger.State() == (if old(Rejects(s)) then old(s.logger.State()) else Served(old(s.logger.State())))
  {
    var resp := SleepImplementation(s, request, protoDuration);
    o := GrpcResult(resp, SleepyErrLimited, SleepyLimitedText);
  }

  /** A server started with a limit of one: while one request is in
      flight, a GET of "/" is answered 429 and a gRPC call
      ResourceExhausted; once it has finished, the same GET succeeds. With
      the flag at zero no request is ever turned away. */
  method OverloadScenario() returns (whileBusy: HttpReply, grpcWhileBusy: Code, afterwards: HttpReply, unlimited: HttpReply)
    ensures whileBusy == ErrorReply(StatusTooManyRequests, TextOf(SleepyErrLimited))
    ensures grpcWhileBusy == ResourceExhausted
    ensures afterwards == Written && unlimited == Written
  {
    var noDuration := (_: string) => None;
    var anyProto := (_: ProtoDuration) => Some(0);
    assert ParseRequest("", "", noDuration) == Ok(SleepRequest(None, 0));
    assert SleepOutcome(SleepRequest(None, 0), anyProto).Done?;
    var s := SetUpServer(1);
    var c := s.limiter.c;
    var inFlight := c.Start();
    whileBusy := RawRootHandler(s, "/", "GET", "", "", noDuration, anyProto);
    var rpc := Sleep(s, SleepRequest(None, 0), anyProto);
    grpcWhileBusy := if rpc.Failed? then CodeOf(Some(rpc.error)) else OK;
    var fatal := c.End();
    afterwards := RawRootHandler(s, "/", "GET", "", "", noDuration, anyProto);
    var open := SetUpServer(0);
    unlimited := RawRootHandler(open, "/", "GET", "", "", noDuration, anyProto);
  }
}
