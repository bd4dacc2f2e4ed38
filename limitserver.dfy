/** limitserver/limitserver.go: the same sleep service without a limiter of
    its own. Concurrency is limited by the library wrappers the program
    serves through (HttpLimit.ListenAndServe and GrpcLimit.NewServer), so
    the ErrLimited branches of its own handlers can never fire. */
module LimitServer {
  import opened GoLib
  import opened Protocols
  import opened MaxLogger
  import opened SleepService

  /** The server struct: only the logger. */
  class Server {
    const logger: ConcurrentMaxLogger

    constructor ()
      ensures fresh(logger) && logger.State() == Peak(0, 0) && logger.Valid()
    {
      logger := new ConcurrentMaxLogger();
    }
  }

  /** sleepImplementation: SleepOutcome's work, with the logger's deferred
      end run on every path, the panic of `make` included. */
  method SleepImplementation(s: Server, request: SleepRequest, protoDuration: ProtoDuration -> Option<int>)
    returns (o: Outcome<SleepResponse>)
    requires s.logger.Valid()
    modifies s.logger
    ensures s.logger.Valid()
    ensures o == SleepOutcome(request, protoDuration)
    ensures s.logger.State() == Served(old(s.logger.State()))
  {
    var logged := s.logger.Start();
    // the logger's end is deferred
    o := WasteMemory(request, protoDuration);
    var fatal := s.logger.End();
  }

  /** rootHandler: a parameter error is returned before the logger starts. */
  method RootHandler(s: Server, sleepValue: string, wasteValue: string,
                     parseDuration: string -> Option<int>, protoDuration: ProtoDuration -> Option<int>)
    returns (o: Outcome<SleepResponse>)
    requires s.logger.Valid()
    modifies s.logger
    ensures s.logger.Valid() && s.logger.current == old(s.logger.current)
    ensures ParseRequest(sleepValue, wasteValue, parseDuration).Err? ==>
      o == Failed(ParseRequest(sleepValue, wasteValue, parseDuration).error) && s.logger.State() == old(s.logger.State())
    ensures ParseRequest(sleepValue, wasteValue, parseDuration).Ok? ==>
      && o == SleepOutcome(ParseRequest(sleepValue, wasteValue, parseDuration).value, protoDuration)
      && s.logger.State() == Served(old(s.logger.State()))
  {
    var req := ParseRequest(sleepValue, wasteValue, parseDuration);
    if req.Err? {
      return Failed(req.error);
    }
    o := SleepImplementation(s, req.value, protoDuration);
  }

  /** rawRootHandler: 404 and 405 before any work, 500 for every error. The
      429 it keeps for concurrentlimit.ErrLimited is never sent, because
      nothing below it can return that error. */
  method RawRootHandler(s: Server, path: string, httpMethod: string, sleepValue: string, wasteValue: string,
                        parseDuration: string -> Option<int>, protoDuration: ProtoDuration -> Option<int>)
    returns (reply: HttpReply)
    requires s.logger.Valid()
    modifies s.logger
    ensures s.logger.Valid() && s.logger.current == old(s.logger.current)
    ensures Route(path, httpMethod).Some? ==> reply == Route(path, httpMethod).value && s.logger.State() == old(s.logger.State())
    ensures Route(path, httpMethod).None? && ParseRequest(sleepValue, wasteValue, parseDuration).Ok? ==>
      && reply == RootReply(SleepOutcome(ParseRequest(sleepValue, wasteValue, parseDuration).value, protoDuration), ErrLimited)
      && s.logger.State() == Served(old(s.logger.State()))
    ensures Route(path, httpMethod).None? && ParseRequest(sleepValue, wasteValue, parseDuration).Err? ==>
      && reply == ErrorReply(StatusInternalServerError, TextOf(ParseRequest(sleepValue, wasteValue, parseDuration).error))
      && s.logger.State() == old(s.logger.State())
    ensures reply.ErrorReply? ==> reply.status != StatusTooManyRequests
  {
    var early := Route(path, httpMethod);
    if early.Some? {
      return early.value;
    }
    var o := RootHandler(s, sleepValue, wasteValue, parseDuration, protoDuration);
    reply := RootReply(o, ErrLimited);
  }

  /** The gRPC Sleep method. Its ErrLimited-to-ResourceExhausted mapping is
      never used: the result is sleepImplementation's, and never a
      ResourceExhausted status. */
  method Sleep(s: Server, request: SleepRequest, protoDuration: ProtoDuration -> Option<int>)
    returns (o: Outcome<SleepResponse>)
    requires s.logger.Valid()
    modifies s.logger
    ensures s.logger.Valid() && s.logger.current == old(s.logger.current)
    ensures o == SleepOutcome(request, protoDuration)
    ensures s.logger.State() == Served(old(s.logger.State()))
    ensures o.Failed? ==> CodeOf(Some(o.error)) != ResourceExhausted
  {
    var resp := SleepImplementation(s, request, protoDuration);
    o := GrpcResult(resp, ErrLimited, LimitedText);
  }

  /** Two requests, one after the other: the first sets the peak to one and
      the second does not raise it; a DELETE is refused before it counts. */
  method PeakScenario() returns (first: HttpReply, second: HttpReply, refused: HttpReply, peak: int)
    ensures first == Written && second == Written
    ensures refused == ErrorReply(StatusMethodNotAllowed, Text(OnlyGetText))
    ensures peak == 1
  {
    var noDuration := (_: string) => None;
    var anyProto := (_: ProtoDuration) => Some(0);
    assert ParseRequest("", "", noDuration) == Ok(SleepRequest(None, 0));
    assert SleepOutcome(SleepRequest(None, 0), anyProto).Done?;
    var s := new Server();
    first := RawRootHandler(s, "/", "GET", "", "", noDuration, anyProto);
    second := RawRootHandler(s, "/", "GET", "", "", noDuration, anyProto);
    refused := RawRootHandler(s, "/", "DELETE", "", "", noDuration, anyProto);
    peak := s.logger.max;
  }
}
