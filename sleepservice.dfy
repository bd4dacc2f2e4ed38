/** The request handling that sleepyserver/sleepyserver.go and
    limitserver/limitserver.go share: the HTTP front door (route checks and
    error-to-status mapping), the query-parameter rules of rootHandler, the
    gRPC error mapping of Sleep, and the memory-wasting loops of
    sleepImplementation. time.ParseDuration and ptypes.Duration are kept
    abstract as parameters; time.Sleep has no effect in the model. */
module SleepService {
  import opened GoLib
  import opened Protocols

  // ---------------------------------------------------------------------------
  // The HTTP front door (rawRootHandler)

  const NotFoundText: string := "404 page not found"
  const OnlyGetText: string := "only GET is supported"

  /** The checks rawRootHandler makes before any work: the path first, then
      the method. None means the request goes on to rootHandler. */
  function Route(path: string, httpMethod: string): (r: Option<HttpReply>)
    ensures r.None? <==> path == "/" && httpMethod == "GET"
    ensures path != "/" ==> r == Some(ErrorReply(StatusNotFound, Text(NotFoundText)))
    ensures path == "/" && httpMethod != "GET" ==> r == Some(ErrorReply(StatusMethodNotAllowed, Text(OnlyGetText)))
  {
    if path != "/" then Some(ErrorReply(StatusNotFound, Text(NotFoundText)))
    else if httpMethod != "GET" then Some(ErrorReply(StatusMethodNotAllowed, Text(OnlyGetText)))
    else None
  }

  /** The status rawRootHandler picks for an error from rootHandler: 429 for
      the program's own limiter sentinel (compared by identity), 500 for
      anything else. */
  function ErrorStatus(err: Error, limited: Error): (status: int)
    ensures status == StatusTooManyRequests <==> err == limited
    ensures status != StatusTooManyRequests ==> status == StatusInternalServerError
  {
    if err == limited then StatusTooManyRequests else StatusInternalServerError
  }

  /** The reply once rootHandler has run: its own response on success, the
      error's text with ErrorStatus's code on an error, and an aborted
      connection when it panicked (net/http recovers handler panics). */
  function RootReply(o: Outcome<SleepResponse>, limited: Error): (reply: HttpReply)
    ensures o.Done? <==> reply == Written
    ensures o.Panic? <==> reply == Aborted
    ensures o.Failed? ==> reply == ErrorReply(ErrorStatus(o.error, limited), TextOf(o.error))
  {
    match o
    case Done(_) => Written
    case Failed(err) => ErrorReply(ErrorStatus(err, limited), TextOf(err))
    case Panic(_) => Aborted
  }

  /** Sleep's mapping for gRPC: the limiter sentinel becomes a
      ResourceExhausted status with the sentinel's text; every other error,
      a success and a panic are passed on unchanged. */
  function GrpcResult(o: Outcome<SleepResponse>, limited: Error, limitedText: string): (r: Outcome<SleepResponse>)
    ensures o == Failed(limited) ==> r == Failed(StatusError(ResourceExhausted, limitedText))
    ensures o != Failed(limited) ==> r == o
  {
    if o == Failed(limited) then Failed(StatusError(ResourceExhausted, limitedText)) else o
  }

  // ---------------------------------------------------------------------------
  // rootHandler's query parameters

  const Second: int := 1_000_000_000

  /** A google.protobuf.Duration message. */
  datatype ProtoDuration = ProtoDuration(seconds: int, nanos: int)

  /** ptypes.DurationProto: the nanoseconds of a time.Duration split into
      whole seconds and the remaining nanoseconds, both with the sign of the
      duration. */
  function DurationProto(d: int): (p: ProtoDuration)
    ensures p.seconds * Second + p.nanos == d
    ensures -Second < p.nanos < Second
    ensures d >= 0 ==> p.seconds >= 0 && p.nanos >= 0
    ensures d <= 0 ==> p.seconds <= 0 && p.nanos <= 0
  {
    // Go's `/` truncates toward zero
    var secs := if d >= 0 then d / Second else -((-d) / Second);
    ProtoDuration(secs, d - secs * Second)
  }

  /** A sleepymemory.SleepRequest: no duration is a nil SleepDuration. */
  datatype SleepRequest = SleepRequest(sleepDuration: Option<ProtoDuration>, wasteBytes: int)

  datatype SleepResponse = SleepResponse(ignored: int)

  /** The `sleep` parameter. Empty sets no duration; an integer n (as
      strconv.Atoi reads it) is n seconds, multiplied as an int64
      time.Duration; anything else goes to the duration parser
      `parseDuration` (time.ParseDuration, None when it fails), whose failure
      is the error. Atoi's own error is dropped. */
  function ParseSleep(sleepValue: string, parseDuration: string -> Option<int>): (r: Res<Option<ProtoDuration>>)
    ensures r == Ok(None) <==> sleepValue == ""
    ensures Atoi(sleepValue).Ok? ==> r == Ok(Some(DurationProto(WrapInt64(Atoi(sleepValue).value * Second))))
    ensures r.Err? ==> Atoi(sleepValue).Err? && parseDuration(sleepValue).None? && r.error == DurationError(sleepValue)
    ensures sleepValue != "" && Atoi(sleepValue).Err? ==>
      r == match parseDuration(sleepValue)
           case None => Err(DurationError(sleepValue))
           case Some(d) => Ok(Some(DurationProto(d)))
  {
    if sleepValue == "" then Ok(None)
    else match Atoi(sleepValue)
      case Ok(seconds) => Ok(Some(DurationProto(WrapInt64(seconds * Second))))
      case Err(_) =>
        match parseDuration(sleepValue)
        case None => Err(DurationError(sleepValue))
        case Some(duration) => Ok(Some(DurationProto(duration)))
  }

  /** A decimal integer is always read as seconds, whatever the duration
      parser would say of it; when the seconds fit in a time.Duration the
      request carries exactly n seconds and no nanoseconds. */
  lemma IntegerSecondsFirst(n: int, parseDuration: string -> Option<int>)
    requires IsInt64(n)
    ensures ParseSleep(Itoa(n), parseDuration) == Ok(Some(DurationProto(WrapInt64(n * Second))))
    ensures IsInt64(n * Second) ==> ParseSleep(Itoa(n), parseDuration) == Ok(Some(ProtoDuration(n, 0)))
  {
    AtoiItoa(n);
    if IsInt64(n * Second) {
      var p := DurationProto(n * Second);
      assert (p.seconds - n) * Second + p.nanos == 0;
    }
  }

  /** The `waste` parameter: empty means 0 bytes, otherwise strconv.Atoi,
      whose *NumError is the error. */
  function ParseWaste(wasteValue: string): (r: Res<int>)
    ensures wasteValue == "" ==> r == Ok(0)
    ensures wasteValue != "" ==> (r.Ok? <==> Atoi(wasteValue).Ok?)
    ensures wasteValue != "" && Atoi(wasteValue).Ok? ==> r == Ok(Atoi(wasteValue).value)
    ensures r.Ok? ==> IsInt64(r.value)
    ensures r.Err? ==> r.error == NumError("Atoi", wasteValue, Atoi(wasteValue).error)
  {
    if wasteValue == "" then Ok(0)
    else match Atoi(wasteValue)
      case Ok(bytes) => Ok(bytes)
      case Err(kind) => Err(NumError("Atoi", wasteValue, kind))
  }

  /** Every int64 byte count written in decimal is read back as itself. */
  lemma WasteItoa(n: int)
    requires IsInt64(n)
    ensures ParseWaste(Itoa(n)) == Ok(n)
  {
    AtoiItoa(n);
  }

  /** The request rootHandler builds: the `sleep` parameter is looked at
      first and its error wins; then `waste`. */
  function ParseRequest(sleepValue: string, wasteValue: string, parseDuration: string -> Option<int>): (r: Res<SleepRequest>)
    ensures ParseSleep(sleepValue, parseDuration).Err? ==> r == Err(ParseSleep(sleepValue, parseDuration).error)
    ensures ParseSleep(sleepValue, parseDuration).Ok? ==>
      && (r.Ok? <==> ParseWaste(wasteValue).Ok?)
      && (r.Err? ==> r.error == ParseWaste(wasteValue).error)
    ensures r.Ok? ==> r.value == SleepRequest(ParseSleep(sleepValue, parseDuration).value, ParseWaste(wasteValue).value)
  {
    match ParseSleep(sleepValue, parseDuration)
    case Err(err) => Err(err)
    case Ok(duration) =>
      match ParseWaste(wasteValue)
      case Err(err) => Err(err)
      case Ok(bytes) => Ok(SleepRequest(duration, bytes))
  }

  /** No parameter error is ever a limiter sentinel, so through
      rawRootHandler every one of them is a 500. */
  lemma ParseErrorsAreServerErrors(sleepValue: string, wasteValue: string, parseDuration: string -> Option<int>, limited: Error)
    requires limited == ErrLimited || limited == SleepyErrLimited
    requires ParseRequest(sleepValue, wasteValue, parseDuration).Err?
    ensures ErrorStatus(ParseRequest(sleepValue, wasteValue, parseDuration).error, limited) == StatusInternalServerError
  {
  }

  // ---------------------------------------------------------------------------
  // sleepImplementation's memory

  newtype byte = x: int | 0 <= x < 256

  const PageSize: int := 4096
  const SampleStride: int := 10 * PageSize

  const MakesliceLen: string := "runtime error: makeslice: len out of range"

  /** `make([]byte, n)`: a zeroed slice, or a panic for a negative length. */
  method MakeBytes(n: int) returns (o: Outcome<array<byte>>)
    ensures n < 0 ==> o == Panic(MakesliceLen)
    ensures n >= 0 ==> o.Done? && fresh(o.value) && o.value.Length == n
    ensures n >= 0 ==> forall i :: 0 <= i < n ==> o.value[i] == 0
  {
    if n < 0 {
      return Panic(MakesliceLen);
    }
    var a := new byte[n](_ => 0);
    o := Done(a);
  }

  /** The touch loop: 0xff at exactly the indices that are multiples of the
      page size, every other byte as it was. */
  method TouchPages(a: array<byte>)
    modifies a
    ensures forall i :: 0 <= i < a.Length ==> a[i] == if i % PageSize == 0 then 0xff else old(a[i])
  {
    var i := 0;
    while i < a.Length
      invariant 0 <= i && i % PageSize == 0
      invariant forall k :: 0 <= k < a.Length ==> a[k] == if k < i && k % PageSize == 0 then 0xff else old(a[k])
    {
      a[i] := 0xff;
      i := i + PageSize;
    }
  }

  /** The sum of the bytes at `from`, `from + SampleStride`, ... below |s|. */
  function SampleSum(s: seq<byte>, from: nat): int
    decreases |s| - from
  {
    if from >= |s| then 0 else s[from] as int + SampleSum(s, from + SampleStride)
  }

  /** How many of `from`, `from + SampleStride`, ... lie below n. */
  function Samples(from: int, n: int): nat
    decreases n - from
  {
    if from >= n then 0 else 1 + Samples(from + SampleStride, n)
  }

  /** The read loop: the sum of every tenth page's first byte. */
  method SumSamples(a: array<byte>) returns (total: int)
    ensures total == SampleSum(a[..], 0)
  {
    total := 0;
    var i := 0;
    while i < a.Length
      invariant 0 <= i
      invariant total + SampleSum(a[..], i) == SampleSum(a[..], 0)
    {
      total := total + a[i] as int;
      i := i + SampleStride;
    }
  }

  /** The read loop depends on nothing but the sampled bytes. */
  lemma {:induction false} SampleSumReadsOnlySamples(s: seq<byte>, t: seq<byte>, from: nat)
    requires |s| == |t| && from % SampleStride == 0
    requires forall i :: 0 <= i < |s| && i % SampleStride == 0 ==> s[i] == t[i]
    ensures SampleSum(s, from) == SampleSum(t, from)
    decreases |s| - from
  {
    if from < |s| {
      SampleSumReadsOnlySamples(s, t, from + SampleStride);
    }
  }

  /** Once every page has been touched, each sampled byte is 0xff, so the
      total is 255 per sample, whatever the other bytes hold. */
  lemma {:induction false} TouchedSampleSum(s: seq<byte>, from: nat)
    requires from % SampleStride == 0
    requires forall i :: 0 <= i < |s| && i % PageSize == 0 ==> s[i] == 0xff
    ensures SampleSum(s, from) == 255 * Samples(from, |s|)
    decreases |s| - from
  {
    if from < |s| {
      assert from % PageSize == 0;
      TouchedSampleSum(s, from + SampleStride);
    }
  }

  /** The number of samples below n is n / 40960 rounded up. */
  lemma {:induction false} SamplesCount(from: int, n: int)
    requires from <= n + SampleStride - 1
    ensures Samples(from, n) == (n - from + SampleStride - 1) / SampleStride
    decreases n - from
  {
    if from < n {
      SamplesCount(from + SampleStride, n);
      var x := n - from - 1;
      assert (x + SampleStride) / SampleStride == x / SampleStride + 1;
    }
  }

  /** What sleepImplementation computes once admitted (with
      `protoDuration` standing for ptypes.Duration, None when the message
      is not a valid time.Duration): a negative byte count makes `make`
      panic; an unconvertible duration is an error; otherwise the response
      carries 255 for each sampled page. The only error it can produce is
      the duration error. */
  function SleepOutcome(request: SleepRequest, protoDuration: ProtoDuration -> Option<int>): (o: Outcome<SleepResponse>)
    ensures request.wasteBytes < 0 <==> o == Panic(MakesliceLen)
    ensures o.Failed? ==> o.error == ProtoDurationError
    ensures o.Panic? ==> o == Panic(MakesliceLen)
    ensures request.wasteBytes >= 0 ==>
      (o.Failed? <==> request.sleepDuration.Some? && protoDuration(request.sleepDuration.value).None?)
    ensures request.wasteBytes >= 0 && !o.Failed? ==> o.Done?
    ensures o.Done? ==> request.wasteBytes >= 0 && o.value.ignored == 255 * ((request.wasteBytes + SampleStride - 1) / SampleStride)
  {
    if request.wasteBytes < 0 then Panic(MakesliceLen)
    else if request.sleepDuration.Some? && protoDuration(request.sleepDuration.value).None? then Failed(ProtoDurationError)
    else
      SamplesCount(0, request.wasteBytes);
      Done(SleepResponse(255 * Samples(0, request.wasteBytes)))
  }

  /** The memory part of sleepImplementation: allocate, touch every page,
      check the duration, read back every tenth page. */
  method WasteMemory(request: SleepRequest, protoDuration: ProtoDuration -> Option<int>) returns (o: Outcome<SleepResponse>)
    ensures o == SleepOutcome(request, protoDuration)
  {
    var made := MakeBytes(request.wasteBytes);
    if made.Panic? {
      return Panic(made.message);
    }
    var wasteSlice := made.value;
    TouchPages(wasteSlice);
    if request.sleepDuration.Some? && protoDuration(request.sleepDuration.value).None? {
      return Failed(ProtoDurationError);
    }
    // time.Sleep(duration)
    var total := SumSamples(wasteSlice);
    TouchedSampleSum(wasteSlice[..], 0);
    o := Done(SleepResponse(total));
  }
}
