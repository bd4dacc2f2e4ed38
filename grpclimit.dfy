/** grpclimit/grpclimit.go: building a gRPC server whose unary calls go
    through the limiter, and the interceptor itself. net.Listen,
    netutil.LimitListener, grpc.NewServer and serving are opaque steps. */
module GrpcLimit {
  import opened GoLib
  import opened Protocols
  import opened AdmissionCounter
  import opened ConcurrentLimit
  import opened HttpLimit

  /** A caller-supplied grpc.UnaryServerInterceptor; what it does is opaque. */
  datatype UserInterceptor = UserInterceptor(id: nat)

  /** The closure UnaryLimitInterceptor(limiter, next) returns; invoking it is Intercept. */
  datatype LimitInterceptor = LimitInterceptor(limiter: Limiter, next: Option<UserInterceptor>)

  function UnaryLimitInterceptor(limiter: Limiter, next: Option<UserInterceptor>): (i: LimitInterceptor)
    ensures i.limiter == limiter && i.next == next
  {
    LimitInterceptor(limiter, next)
  }

  /** grpc.ServerOption values: the caller's own (opaque), the stream cap,
      and the unary interceptor. */
  datatype ServerOption =
    | CallerOption(id: nat)
    | MaxConcurrentStreams(streams: int)
    | UnaryInterceptor(interceptor: LimitInterceptor)

  /** The options NewServerWithInterceptors hands to grpc.NewServer: the
      caller's options in their order, then the per-connection stream cap
      `uint32(requestLimit)`, then the limiting interceptor. */
  function LimitedOptions(options: seq<ServerOption>, requestLimit: int, interceptor: LimitInterceptor): (r: seq<ServerOption>)
    ensures |r| == |options| + 2 && r[..|options|] == options
    ensures r[|options|] == MaxConcurrentStreams(Uint32(requestLimit))
    ensures r[|options| + 1] == UnaryInterceptor(interceptor)
  {
    var withStreams := options + [MaxConcurrentStreams(Uint32(requestLimit))];
    withStreams + [UnaryInterceptor(interceptor)]
  }

  /** For any request limit a 32-bit stream cap can hold, the cap is the
      request limit itself and the limiter is the last option. */
  lemma StreamCapIsRequestLimit(options: seq<ServerOption>, requestLimit: int, interceptor: LimitInterceptor)
    requires 0 < requestLimit < TwoTo32
    ensures MaxConcurrentStreams(requestLimit) in LimitedOptions(options, requestLimit, interceptor)
    ensures LimitedOptions(options, requestLimit, interceptor)[|options| + 1] == UnaryInterceptor(interceptor)
  {
    assert LimitedOptions(options, requestLimit, interceptor)[|options|] == MaxConcurrentStreams(requestLimit);
  }

  /** What NewServerWithInterceptors returns: the grpc.Server (given by the
      options it was built with) and the limited listener. */
  datatype LimitedServer = LimitedServer(options: seq<ServerOption>, listener: Listener)

  /** NewServerWithInterceptors. `listenOk` is whether net.Listen succeeds;
      `listened` whether it was called: only after both limit checks pass. */
  method NewServerWithInterceptors(addr: string, requestLimit: int, connectionLimit: int,
                                   unaryInterceptor: Option<UserInterceptor>, options: seq<ServerOption>, listenOk: bool)
    returns (r: Res<LimitedServer>, listened: bool)
    ensures listened <==> CheckLimits("NewServer", requestLimit, connectionLimit).None?
    ensures !listened ==> r == Err(CheckLimits("NewServer", requestLimit, connectionLimit).value)
    ensures listened && !listenOk ==> r == Err(ListenError(addr))
    ensures listened && listenOk ==>
      && r.Ok? && r.value.listener == LimitListener(addr, connectionLimit)
      && |r.value.options| == |options| + 2 && r.value.options[|options| + 1].UnaryInterceptor?
      && var chain := r.value.options[|options| + 1].interceptor;
         && r.value.options == LimitedOptions(options, requestLimit, chain)
         && chain.next == unaryInterceptor
         && chain.limiter.Bounded? && fresh(chain.limiter.sync)
         && chain.limiter.sync.State() == Initial(requestLimit) && Valid(chain.limiter)
  {
    var invalid := CheckLimits("NewServer", requestLimit, connectionLimit);
    if invalid.Some? {
      return Err(invalid.value), false;
    }
    listened := true;
    if !listenOk {
      return Err(ListenError(addr)), listened;
    }
    var limitedListener := LimitListener(addr, connectionLimit);

    var requestLimiter := New(requestLimit);
    var limitedUnaryInterceptorChain := UnaryLimitInterceptor(requestLimiter.value, unaryInterceptor);

    var serverOptions := LimitedOptions(options, requestLimit, limitedUnaryInterceptorChain);
    r := Ok(LimitedServer(serverOptions, limitedListener));
  }

  /** NewServer: NewServerWithInterceptors without a caller interceptor. */
  method NewServer(addr: string, requestLimit: int, connectionLimit: int, options: seq<ServerOption>, listenOk: bool)
    returns (r: Res<LimitedServer>, listened: bool)
    ensures listened <==> CheckLimits("NewServer", requestLimit, connectionLimit).None?
    ensures !listened ==> r == Err(CheckLimits("NewServer", requestLimit, connectionLimit).value)
    ensures listened && !listenOk ==> r == Err(ListenError(addr))
    ensures listened && listenOk ==>
      && r.Ok? && r.value.listener == LimitListener(addr, connectionLimit)
      && |r.value.options| == |options| + 2 && r.value.options[|options| + 1].UnaryInterceptor?
      && var chain := r.value.options[|options| + 1].interceptor;
         && r.value.options == LimitedOptions(options, requestLimit, chain)
         && chain.next == None
         && chain.limiter.Bounded? && fresh(chain.limiter.sync)
         && chain.limiter.sync.State() == Initial(requestLimit) && Valid(chain.limiter)
  {
    r, listened := NewServerWithInterceptors(addr, requestLimit, connectionLimit, None, options, listenOk);
  }

  /** What the interceptor makes of Start's result before calling anything:
      ErrLimited becomes a ResourceExhausted status carrying the error's
      text, any other error is passed through unchanged, and only an
      admission (None) goes on downstream. */
  function Rejection(r: StartResult): (e: Option<Error>)
    ensures e.None? <==> r.Admitted?
    ensures r == Refused(ErrLimited) ==> e == Some(StatusError(ResourceExhausted, LimitedText))
    ensures r.Refused? && r.err != ErrLimited ==> e == Some(r.err)
  {
    match r
    case Refused(ErrLimited) => Some(StatusError(ResourceExhausted, LimitedText))
    case Refused(err) => Some(err)
    case Admitted(_) => None
  }

  /** How the downstream call (`next` or `handler`) ends: with a reply
      (a response message, here an opaque number, or an error), or a panic. */
  datatype Downstream = Replied(reply: Res<int>) | Panicked

  /** Which downstream function the interceptor invoked. */
  datatype Call = CalledNext(interceptor: UserInterceptor) | CalledHandler

  const HandlerPanic: string := "panic in the downstream handler"

  function Propagate(d: Downstream): Outcome<int>
  {
    match d
    case Replied(Ok(v)) => Done(v)
    case Replied(Err(e)) => Failed(e)
    case Panicked => Panic(HandlerPanic)
  }

  /** One unary call through the interceptor. On admission exactly one of
      `next` (when set) or `handler` runs, and the deferred release gives
      the slot back however the call ends, a panic included. On rejection
      nothing downstream runs and the limiter is unchanged. */
  method Intercept(i: LimitInterceptor, downstream: Downstream) returns (out: Outcome<int>, calls: seq<Call>, ghost token: nat)
    requires Valid(i.limiter)
    modifies Footprint(i.limiter)
    ensures Valid(i.limiter)
    ensures i.limiter.Bounded? ==> i.limiter.sync.State() == old(i.limiter.sync.State())
    ensures i.limiter.Bounded? ==> i.limiter.sync.live == old(i.limiter.sync.live)
    ensures (i.limiter.Unlimited? || Admits(old(i.limiter.sync.State()))) ==>
      && calls == [if i.next.Some? then CalledNext(i.next.value) else CalledHandler]
      && out == Propagate(downstream)
    ensures i.limiter.Bounded? && !Admits(old(i.limiter.sync.State())) ==>
      calls == [] && out == Failed(StatusError(ResourceExhausted, LimitedText))
  {
    var r;
    r, token := Start(i.limiter);
    var rejected := Rejection(r);
    if rejected.Some? {
      return Failed(rejected.value), [], token;
    }
    // the release is deferred
    if i.next.Some? {
      calls := [CalledNext(i.next.value)];
    } else {
      calls := [CalledHandler];
    }
    out := Propagate(downstream);
    var fatal := Invoke(r.end, token);
    assert !fatal;
  }

  /** The end-to-end gRPC scenario: capacity `permitted` and
      `permitted + 1` calls that are all in flight at once (the handler
      blocks until released). Exactly `permitted` end with OK and one with
      ResourceExhausted, and afterwards nothing is in flight. */
  method BlockedCallsScenario(permitted: int) returns (okCount: nat, exhaustedCount: nat, inFlight: int)
    requires permitted > 0
    ensures okCount == permitted && exhaustedCount == 1 && inFlight == 0
  {
    var o := New(permitted);
    var limiter := o.value;
    var s := limiter.sync;
    okCount, exhaustedCount := 0, 0;
    var admitted: seq<Release> := [];
    ghost var tokens: seq<nat> := [];
    for i := 0 to permitted + 1
      invariant Valid(limiter) && |admitted| == |tokens| && |admitted| + exhaustedCount == i
      invariant s.current == |admitted| && |admitted| == (if i <= permitted then i else permitted)
      invariant forall k :: 0 <= k < |admitted| ==> admitted[k] == EndOf(s)
      invariant forall k :: 0 <= k < |tokens| ==> tokens[k] in s.live
      invariant forall j, k :: 0 <= j < k < |tokens| ==> tokens[j] != tokens[k]
    {
      var r, token := Start(limiter);
      var rejected := Rejection(r);
      if rejected.None? {
        admitted, tokens := admitted + [r.end], tokens + [token];
      } else {
        exhaustedCount := exhaustedCount + if CodeOf(rejected) == ResourceExhausted then 1 else 0;
      }
    }
    // the handlers unblock, each admitted call replies OK and its deferred release runs
    for k := 0 to |admitted|
      invariant Valid(limiter) && okCount == k && s.current == |admitted| - k
      invariant forall m :: 0 <= m < |admitted| ==> admitted[m] == EndOf(s)
      invariant forall m :: k <= m < |tokens| ==> tokens[m] in s.live
      invariant forall j, m :: 0 <= j < m < |tokens| ==> tokens[j] != tokens[m]
    {
      var reply := Propagate(Replied(Ok(0)));
      okCount := okCount + if reply.Done? then 1 else 0;
      var fatal := Invoke(admitted[k], tokens[k]);
    }
    inFlight := s.current;
  }
}
