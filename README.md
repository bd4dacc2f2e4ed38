# concurrentlimit in Dafny

A model of evanj/concurrentlimit. This Go library keeps a server from
running out of memory under overload. It admits a bounded number of
concurrent operations and turns the rest away at once: HTTP gets status
429, gRPC gets `ResourceExhausted`.

The model covers:

- **The limiter** (`concurrentlimit.go`). `syncLimiter` is a class with a
  fixed `max` and a mutable `current`. `Start` admits iff `current + 1 <= max`
  and hands back a release action, otherwise it returns `ErrLimited`. `end`
  decrements and panics below zero. There is an always-admitting variant
  beside it, plus `New`.
  - Both classes step exactly like the pure `AdmissionCounter` model.
  - That model proves `0 <= current <= max` over every sequence of starts
    and ends that does not panic.
  - Ghost release tokens record which admitted operations are still
    outstanding. With them, "a release with a live token never panics" is
    proved.
- **HTTP** (`concurrentlimit.go`). The `Handler` wrapper maps a `Start`
  result to 429, to 500, or to "run the handler, then release".
  `limitListenerForServer` validates the limits before opening any socket,
  defaults the two timeouts to a minute, and installs the wrapper.
  `ListenAndServe` and `ListenAndServeTLS` are modelled too.
- **gRPC** (`grpclimit/grpclimit.go`).
  - `NewServerWithInterceptors` and `NewServer` do the same validation and
    build the option list: the caller's options, then
    `MaxConcurrentStreams(uint32(requestLimit))`, then the interceptor.
  - `UnaryLimitInterceptor` maps a rejection to `ResourceExhausted`, passes
    other errors through, and calls exactly one downstream function. Its
    release is deferred, so it also happens when that function panics.
- **The two demonstration servers** (`sleepyserver/sleepyserver.go`,
  `limitserver/limitserver.go`).
  - Sleepyserver has its own copy of the limiter and its own `errLimited`.
    Its limiter is chosen from the `concurrentRequests` flag.
  - Both servers share `concurrentMaxLogger`. This running maximum is proved
    to equal the high-water mark of any trace.
  - Both share the route checks (404, 405) and the mapping from error to
    status (429 or 500).
  - Both share the gRPC `Sleep` mapping and the parameter rules: integer
    seconds first, then the duration parser; an empty `waste` means 0.
  - Both share the page-touching and sampling loops over an `array<byte>`.
    The response is proved to be 255 for every multiple of 40960 below the
    allocation size.
- **buildtools/getprotoc.go**. Covers the `shouldExtract` filter (with an
  exact characterization), the download URL produced from the template and
  the OS map, and the extraction loop over archive entries.

The mutex is abstracted away: each `Start`, `end`, logger `start` and logger
`end` runs atomically. The model represents Go specifics explicitly:

- panics are `Outcome.Panic` or a `fatal` result;
- errors are values whose sentinels compare by identity;
- `strconv.Atoi` is modelled digit by digit with its 64-bit range checks;
- `time.Duration(n) * time.Second` wraps modulo 2^64;
- `uint32(requestLimit)` keeps the low 32 bits;
- `/` truncates toward zero in `ptypes.DurationProto`.

Calls into libraries that are not shown become parameters or opaque values:

- `net.Listen` succeeding is a `listenOk` flag, and whether it was called is
  an output;
- `netutil.LimitListener` is a `LimitListener(addr, connectionLimit)` value;
- `time.ParseDuration` and `ptypes.Duration` are function parameters;
- a handler's behaviour is a parameter: it returns or it panics;
- `extractFromZip` failing is a predicate on entry names.

Where the description of the library and its code differ, the model follows
the code:

- **HTTP release is not deferred.** `Handler` calls `end()` after
  `ServeHTTP` without `defer` (concurrentlimit.go:163-164). A panicking
  handler therefore keeps its slot forever. `HttpLimit.ServeLimited` states
  this leak, and release-on-panic is claimed only for gRPC
  (`GrpcLimit.Intercept`).
- **A double release is not always detected.** `end` panics only when the
  counter goes below zero. A repeated release while another operation is in
  flight goes unnoticed, and the panic hits the other operation's legitimate
  release later (`ConcurrentLimit.RepeatedReleaseScenario`).
- **`New` rejects zero.** Its doc comment says it panics for `limit < 0`,
  but the code panics for `limit <= 0` (concurrentlimit.go:47-50).
- **A nil server handler is wrapped as it is.** For a zero `http.Server`,
  `limitListenerForServer` wraps the nil handler, and each admitted request
  panics before it is released, so the limiter fills up for good. The
  library functions are modelled as written; see Findings.
- **`NoLimit` returns nil.** The always-admitting limiter exists only in the
  corrected model; see Findings.
- **limitserver's own 429 and `ResourceExhausted` branches are dead.** Its
  `sleepImplementation` consults no limiter, so nothing below it returns
  `ErrLimited` (`LimitServer.RawRootHandler`, `LimitServer.Sleep`). The
  limit is enforced by the library wrappers it serves through.
- **The gRPC test does not match the current API.** grpclimit_test.go calls
  `NewServer(addr, permitted)` and a package-level `Serve`. Only its
  expectation (exactly `permitted` OK, one `ResourceExhausted`) is modelled,
  in `GrpcLimit.BlockedCallsScenario`.
- **No keepalive or idle eviction** is configured for gRPC, so none is modelled.

## Model

| member | source | states |
|---|---|---|
| AdmissionCounter.StartKeepsWithin | concurrentlimit.go:62-73 | from a valid counter, start rejects exactly when the limiter is full; on admission current rises by exactly one, on rejection nothing changes, and 0 <= current <= max holds after |
| AdmissionCounter.EndKeepsWithin | concurrentlimit.go:75-82 | from a valid counter, end is fatal exactly when nothing is in flight, and otherwise lowers current by one and keeps the invariant |
| AdmissionCounter.ExecuteKeepsWithin | concurrentlimit.go:62-82 | every sequence of starts and ends that does not panic keeps 0 <= current <= max and max itself, accounts for every start as admitted or rejected, and leaves admitted starts minus ends more operations in flight |
| AdmissionCounter.UnmatchedEndPanics | concurrentlimit.go:75-82 | more ends than operations in flight plus starts offered always panic at some end |
| AdmissionCounter.StartsWhileRoom | concurrentlimit.go:62-73 | while there is room, every start is admitted |
| AdmissionCounter.CapacityScenario | concurrentlimit.go:62-82 | from a fresh limiter of capacity C, C starts are admitted and the next one is rejected; after one end exactly one more start is admitted |
| AdmissionCounter.DoubleReleasePanics | concurrentlimit.go:75-82 | releasing the only admitted operation twice panics at the second release; an end with nothing started panics at once |
| ConcurrentLimit.SyncLimiter.constructor | concurrentlimit.go:53 | a new syncLimiter has max = limit, nothing in flight and no outstanding tokens |
| ConcurrentLimit.SyncLimiter.Start | concurrentlimit.go:62-73 | the counter steps as AdmissionCounter's start; the result is its own end on admission and ErrLimited otherwise; an admission hands out a fresh token; the invariant and the token accounting are preserved |
| ConcurrentLimit.SyncLimiter.End | concurrentlimit.go:75-82 | the counter steps as AdmissionCounter's end and panics exactly when it drops below zero; using an outstanding token never panics and keeps the accounting |
| ConcurrentLimit.Start | concurrentlimit.go:22-45 | Limiter.Start on either variant: the bounded one as SyncLimiter.Start, the unlimited one always admits with doNothing |
| ConcurrentLimit.Invoke | concurrentlimit.go:41-82 | calling a release: doNothing never panics; a syncLimiter's end steps as AdmissionCounter's end |
| ConcurrentLimit.New | concurrentlimit.go:47-54 | limit <= 0 panics with "limit must be > 0: " followed by the limit; otherwise a fresh bounded limiter with max = limit and current = 0 |
| ConcurrentLimit.NoLimit | concurrentlimit.go:34-45 | the limiter NoLimit is meant to return holds no counter: its footprint is empty and it is always valid, so nothing can exhaust it |
| ConcurrentLimit.NoLimitAsWritten | concurrentlimit.go:34-37 | NoLimit as written returns no Limiter at all (a nil interface), not the always-admitting one |
| ConcurrentLimit.StartVia | concurrentlimit.go:34-37 | Start through an interface value: a nil Limiter panics with a nil dereference; the unlimited limiter admits with doNothing |
| ConcurrentLimit.TestNoLimitAsWritten | concurrentlimit_test.go:5-12 | against NoLimit as written (nil), the test's very first Start panics |
| ConcurrentLimit.TestNoLimit | concurrentlimit_test.go:5-25 | against the unlimited limiter, n successive Starts never error, each returns a non-nil release, and calling every release never panics |
| ConcurrentLimit.CapacityScenario | concurrentlimit.go:49-82 | through the class: a fresh limiter of capacity C admits C starts and refuses the next with ErrLimited; one release does not panic, after it one start is admitted and the next refused |
| ConcurrentLimit.RepeatedReleaseScenario | concurrentlimit.go:75-82 | with two operations in flight, releasing the first twice does not panic, and the second's own release then panics |
| HttpLimit.DefaultTimeoutSpec | concurrentlimit.go:117-124 | a timeout <= 0 becomes the default and a positive one is kept; applying the step twice equals applying it once |
| HttpLimit.Handler | concurrentlimit.go:146-148 | the result is a limiting wrapper that keeps the given limiter and the given handler as the one it serves; ServeLimited takes that wrapper value and states how serving it behaves |
| HttpLimit.Admission | concurrentlimit.go:150-160 | ErrLimited gives 429 with its text, any other error a generic 500, and only an admission goes on to the wrapped handler |
| HttpLimit.ServeLimited | concurrentlimit.go:148-166 | serving a wrapper: a rejected request never reaches the wrapped handler and leaves the wrapper's limiter unchanged; an admitted one calls the wrapped handler exactly once and releases exactly once if the call returns; if it panics (always, for a nil handler) the slot stays taken |
| HttpLimit.CheckLimits | concurrentlimit.go:103-110 | no error iff requestLimit > 0 and connectionLimit >= requestLimit, with the requestLimit message when the first check fails |
| HttpLimit.LimitListenerForServer | concurrentlimit.go:103-131 | net.Listen is called iff both checks pass, so an invalid limit is reported before any socket; on any error the server is untouched; on success both timeouts are defaulted, the handler is wrapped around the old one with a fresh limiter of capacity requestLimit, and the listener is gated at connectionLimit |
| HttpLimit.ListenAndServe | concurrentlimit.go:84-101 | a validation error is returned before listening and leaves the server untouched; a listen error leaves it untouched too; otherwise serving starts on the limited listener, with both timeouts defaulted and the handler wrapped around the old one with a fresh limiter of capacity requestLimit |
| HttpLimit.ListenAndServeTLS | concurrentlimit.go:133-144 | as ListenAndServe, with the same new server state, serving TLS with the given certificate and key files |
| HttpLimit.BlockedRequestsScenario | concurrentlimit.go:148-166 | with capacity C and C+1 requests blocked in the handler at once, exactly C are admitted and one gets 429; after they finish, C+1 further requests are all admitted |
| HttpLimit.NilHandlerLeaks | concurrentlimit.go:126-129 | on a server whose handler is nil, the first `limit` requests all panic inside the wrapper without releasing, and the next one is answered 429 although nothing is in flight |
| HttpLimit.DefaultedHandler | concurrentlimit.go:126-129 | a nil handler is replaced by DefaultServeMux and any other handler kept, so the wrapped handler is never nil and a call of it ends exactly as the handler does |
| HttpLimit.DefaultedHandlerServes | concurrentlimit.go:148-166 | with the nil handler defaulted before wrapping, any number of sequential requests are all served and the limiter stays at zero in flight |
| GrpcLimit.LimitedOptions | grpclimit/grpclimit.go:67-68 | the caller's options come first and in order, then the stream cap uint32(requestLimit), then the unary interceptor |
| GrpcLimit.StreamCapIsRequestLimit | grpclimit/grpclimit.go:67-69 | for any request limit below 2^32 the stream cap equals the request limit and the limiting interceptor is the last option |
| GrpcLimit.NewServerWithInterceptors | grpclimit/grpclimit.go:46-72 | net.Listen is called iff requestLimit > 0 and connectionLimit >= requestLimit; then a listen error is returned; on success the options are LimitedOptions with an interceptor that chains the caller's interceptor behind a fresh limiter of capacity requestLimit, and the listener is gated at connectionLimit |
| GrpcLimit.NewServer | grpclimit/grpclimit.go:37-41 | the same as NewServerWithInterceptors with no caller interceptor |
| GrpcLimit.UnaryLimitInterceptor | grpclimit/grpclimit.go:78-79 | the interceptor keeps the given limiter and the caller's next interceptor; invoking it is GrpcLimit.Intercept |
| GrpcLimit.Rejection | grpclimit/grpclimit.go:82-88 | ErrLimited becomes ResourceExhausted with the error's text, any other error passes unchanged, and only an admission goes on |
| GrpcLimit.Intercept | grpclimit/grpclimit.go:78-96 | on rejection nothing downstream runs, the result is ResourceExhausted and the limiter is unchanged; on admission exactly one of next (when set) or handler runs, its reply or panic is passed on, and the slot is released on every path |
| GrpcLimit.BlockedCallsScenario | grpclimit/grpclimit_test.go:86-105 | with capacity C and C+1 calls in flight at once, exactly C end with OK and one with ResourceExhausted, and afterwards nothing is in flight |
| MaxLogger.RunLogRecordsPeak | limitserver/limitserver.go:150-170 | along any trace that does not panic, max is exactly the larger of its old value and the trace's high-water mark; it never decreases, stays >= current, and current ends as starts minus ends |
| MaxLogger.ConcurrentMaxLogger.constructor | sleepyserver/sleepyserver.go:232 | the zero logger: max = current = 0 |
| MaxLogger.ConcurrentMaxLogger.Start | sleepyserver/sleepyserver.go:160-170 | current rises by one, max becomes the larger of old max and new current, and the log line is printed exactly when the peak rises |
| MaxLogger.ConcurrentMaxLogger.End | sleepyserver/sleepyserver.go:172-179 | current falls by one and panics exactly when it goes below zero; the peak is never lowered |
| MaxLogger.Served | sleepyserver/sleepyserver.go:160-179 | one request started and finished is an end after a start: the peak counts the request, current is back, and the tracking invariant is kept |
| MaxLogger.PeakScenario | limitserver/limitserver.go:150-170 | three overlapping requests set the peak to 3; after two finish, a fourth does not log, and the peak survives every end |
| SleepService.Route | limitserver/limitserver.go:29-38 | a path other than "/" is 404 whatever the method; then a method other than GET is 405; only GET / goes on |
| SleepService.ErrorStatus | sleepyserver/sleepyserver.go:42-49 | 429 exactly for the program's limiter sentinel, 500 for every other error |
| SleepService.RootReply | limitserver/limitserver.go:39-46 | success writes the response, an error gets ErrorStatus's code with the error's text, a panic aborts the connection |
| SleepService.GrpcResult | sleepyserver/sleepyserver.go:108-114 | the limiter sentinel becomes ResourceExhausted with its text; every other error, a success and a panic are unchanged |
| SleepService.DurationProto | limitserver/limitserver.go:79-81 | seconds * 1e9 + nanos equals the duration, with abs(nanos) < 1e9 and both parts carrying the duration's sign |
| SleepService.ParseSleep | limitserver/limitserver.go:68-83 | no duration iff the parameter is empty; an Atoi-readable value is that many seconds (int64 multiplication); otherwise the duration parser's value, converted, and when the parser fails the duration error, which is the only error |
| SleepService.IntegerSecondsFirst | limitserver/limitserver.go:70-81 | a decimal int64 n is read as n seconds whatever the duration parser says, which is exactly (n, 0) when n seconds fit in a time.Duration |
| SleepService.ParseWaste | limitserver/limitserver.go:85-92 | empty means 0 bytes; otherwise Atoi's value iff Atoi accepts it, and Atoi's NumError otherwise |
| SleepService.WasteItoa | limitserver/limitserver.go:85-92 | every int64 byte count written in decimal is read back as itself |
| SleepService.ParseRequest | limitserver/limitserver.go:65-92 | the sleep parameter's error wins; then the waste parameter's; otherwise the request holds both parsed values |
| SleepService.ParseErrorsAreServerErrors | limitserver/limitserver.go:39-46 | a parameter error is never a limiter sentinel, so it always gets 500 |
| SleepService.MakeBytes | limitserver/limitserver.go:118 | make([]byte, n) panics for negative n and is otherwise a fresh zeroed array of length n |
| SleepService.TouchPages | limitserver/limitserver.go:118-122 | exactly the indices that are multiples of 4096 become 0xff and every other byte is unchanged |
| SleepService.SumSamples | limitserver/limitserver.go:136-141 | the total is the sum of the bytes at the multiples of 40960 |
| SleepService.SampleSumReadsOnlySamples | limitserver/limitserver.go:136-141 | the read loop's total depends only on the bytes at multiples of 40960 |
| SleepService.TouchedSampleSum | sleepyserver/sleepyserver.go:126-150 | after every page is touched, the total is 255 per sample, whatever the other bytes hold |
| SleepService.SamplesCount | sleepyserver/sleepyserver.go:145-150 | the number of samples below n is n / 40960 rounded up |
| SleepService.SleepOutcome | limitserver/limitserver.go:113-142 | a negative byte count panics in make, and that is the only panic; otherwise it fails iff the duration is present and unconvertible, with the duration error, and succeeds with 255 * ceil(n / 40960) |
| SleepService.WasteMemory | sleepyserver/sleepyserver.go:126-150 | the allocate, touch, duration-check and read steps compute SleepOutcome |
| SleepyServer.ConcurrentLimiter.constructor | sleepyserver/sleepyserver.go:235 | a new concurrentLimiter has max = limit and nothing in flight |
| SleepyServer.ConcurrentLimiter.Start | sleepyserver/sleepyserver.go:190-201 | steps as AdmissionCounter's start; its own end on admission, errLimited with no change otherwise; the invariant is kept |
| SleepyServer.ConcurrentLimiter.End | sleepyserver/sleepyserver.go:203-210 | steps as AdmissionCounter's end and panics exactly below zero; from a valid state with something in flight it never panics |
| SleepyServer.SetUpServer | sleepyserver/sleepyserver.go:232-236 | the unbounded limiter unless concurrentRequests > 0, in which case a fresh bounded one with max = concurrentRequests; a zero logger |
| SleepyServer.StartLimiter | sleepyserver/sleepyserver.go:212-222 | nilLimiter always admits with doNothing; a concurrentLimiter as its Start |
| SleepyServer.SleepImplementation | sleepyserver/sleepyserver.go:116-151 | a rejected request returns errLimited before the logger starts or anything is allocated; an admitted one computes SleepOutcome, raises the logger's peak as one more request would, and its deferred ends restore both counters on every path, a panic included |
| SleepyServer.RootHandler | sleepyserver/sleepyserver.go:68-106 | a parameter error is returned before the limiter or the logger is touched; otherwise the result of sleepImplementation, with the logger unchanged on a rejection and otherwise holding one more served request |
| SleepyServer.RawRootHandler | sleepyserver/sleepyserver.go:32-50 | 404/405 before any work; parameter errors are 500; a full limiter is 429, and a 429 implies a full limiter; otherwise RootReply of SleepOutcome; the logger is unchanged unless the request was admitted, when it holds one more served request |
| SleepyServer.Sleep | sleepyserver/sleepyserver.go:108-114 | a full limiter is ResourceExhausted with errLimited's text and leaves the logger unchanged; otherwise sleepImplementation's result, with one more served request logged |
| SleepyServer.OverloadScenario | sleepyserver/sleepyserver.go:32-50 | with concurrentRequests = 1 and a request in flight, GET / gets 429 and a gRPC call ResourceExhausted; after it ends, GET / succeeds; with the flag at 0 nothing is turned away |
| LimitServer.Server.constructor | limitserver/limitserver.go:179 | the server starts with a zero logger |
| LimitServer.SleepImplementation | limitserver/limitserver.go:113-142 | computes SleepOutcome; the deferred logger end restores current on every path and the peak rises as for one more request |
| LimitServer.RootHandler | limitserver/limitserver.go:65-103 | a parameter error is returned before the logger starts and leaves it unchanged; otherwise sleepImplementation's result, with one more served request logged |
| LimitServer.RawRootHandler | limitserver/limitserver.go:29-47 | 404/405 before any work and a parameter error as 500, both with the logger unchanged; otherwise RootReply of SleepOutcome with one more served request logged; never 429 |
| LimitServer.Sleep | limitserver/limitserver.go:105-111 | sleepImplementation's result, never a ResourceExhausted status, with one more served request logged |
| LimitServer.PeakScenario | limitserver/limitserver.go:29-47 | two sequential GETs succeed and leave the peak at 1; a DELETE is refused with 405 before it is counted |
| GetProtoc.ProtocOS | buildtools/getprotoc.go:23-26 | the archive OS name is osx iff GOOS is darwin, linux iff GOOS is linux, and empty iff GOOS is anything else |
| GetProtoc.ShouldExtract | buildtools/getprotoc.go:28-31 | a name that is extracted is bin/protoc, or longer than include/, starts with it and does not end in "/" |
| GetProtoc.ShouldExtractExactly | buildtools/getprotoc.go:28-31 | a name is extracted iff it is bin/protoc, or include/ followed by a non-empty path that does not end in "/" |
| GetProtoc.ShouldExtractCases | buildtools/getprotoc.go:20-31 | no directory entry is extracted; bin/protoc and files under include/ are; include/ itself is not |
| GetProtoc.ProtocURL | buildtools/getprotoc.go:61 | the URL is the template with the version, the version again, and the mapped OS name substituted for its three %s verbs in order |
| GetProtoc.Selected | buildtools/getprotoc.go:80-81 | an entry is selected iff it is in the archive and passes the filter: every selected entry passes it and comes from the archive, and every archive entry that passes it is selected |
| GetProtoc.SelectedKeepsOrder | buildtools/getprotoc.go:80-81 | the selection of an archive split in two is the selection of the front followed by that of the back, so archive order is kept |
| GetProtoc.AttemptsArePrefix | buildtools/getprotoc.go:80-87 | the entries whose extraction is attempted are a prefix of the filtered entries in archive order |
| GetProtoc.Attempts | buildtools/getprotoc.go:80-87 | at most one attempt per archive entry, and a run that panicked did so on its last attempt |
| GetProtoc.CompleteExtraction | buildtools/getprotoc.go:80-87 | without a failure every filtered entry is extracted and none failed |
| GetProtoc.FirstFailureStops | buildtools/getprotoc.go:80-87 | with a failure, the last attempted entry is the one that failed and every earlier attempt succeeded |
| GetProtoc.ExtractAll | buildtools/getprotoc.go:80-87 | the loop attempts and stops exactly as Attempts describes |
| GoLib.Atoi | limitserver/limitserver.go:71 | Atoi succeeds iff the string is an optional sign followed by at least one digit and the signed value fits in an int64, and then the result is that signed value |
| GoLib.AtoiItoa | limitserver/limitserver.go:87 | Atoi reads back every int64 that Itoa prints |
| GoLib.FormatNat | concurrentlimit.go:51 | the decimal rendering is non-empty, all digits, denotes n, and has no leading zero |
| GoLib.WrapInt64 | limitserver/limitserver.go:81 | the int64 result agrees with the exact value modulo 2^64 and equals it when it fits |
| GoLib.Uint32 | grpclimit/grpclimit.go:67 | the result is in [0, 2^32), agrees with the input modulo 2^32, and equals it when it fits |
| GoLib.SprintfVerb | buildtools/getprotoc.go:61 | a %s after verb-free text consumes exactly the next argument |

## Left out

- The mutex and all goroutine interleaving: each start and end is one atomic step. Races and blocking are not modelled.
- netutil.LimitListener, the connection gate: it is represented only by the connection limit it receives.
- net.Listen, http.Server.Serve/ServeTLS, grpc.NewServer, grpc.Server.Serve and LimitedServer.Serve: opaque steps. A listen either succeeds or returns a listen error.
- Caller-supplied gRPC options are opaque. A caller option that sets its own interceptor (which grpc.NewServer refuses) is not modelled.
- loadclient/main.go: it is a network client, outside this model.
- humanBytes and memstatsHandler: floating-point formatting and runtime memory statistics.
- time.Sleep, time.ParseDuration and ptypes.Duration: the parser and the conversion are function parameters, and sleeping has no effect.
- An allocation too large for memory is not modelled; only the negative-length panic of make is.
- The text rootHandler writes on success, which uses Duration.String formatting: it is the reply `Written`.
- The error text of errors other than the sentinels (fmt.Errorf, NumError, ParseDuration): the values carry their parts, not Go's rendering.
- The log lines (log.Printf, log.Println) other than the logger's "new max" decision.
- The HTTP download, the zip reader and extractFromZip's file writes in getprotoc: the download URL is modelled, and extraction failing is a predicate on entry names.
- The flag parsing and listener setup in the two servers' main functions, except sleepyserver's limiter choice.
- sleepyserver's concurrentConnections and grpcConcurrentStreams flags.
- fmt.Sprintf: only the %s verb is modelled, plus the missing-argument form. Other verbs and surplus arguments are not.
- ConcurrentLimit.SyncLimiter.Start, ConcurrentLimit.SyncLimiter.End: the release tokens are ghost. Go's end carries no token, so "release exactly once" is a proof obligation on callers, not a runtime check.
- ConcurrentLimit.StartVia: for a bounded limiter it states only that the call completes; its effect is that of ConcurrentLimit.Start.
- HttpLimit.ServeLimited: a panicking handler is always reported as aborted. net/http's recovery and logging are not modelled further.
- HttpLimit.ServeLimited: when the wrapped handler is itself a limiting wrapper, its own limiter is not stepped; how it ends is the `exit` parameter, as for any other non-nil handler.
- Counter width: the limiters' `current` and the loggers' `current` and `max` are Go `int`s, but the model uses unbounded integers. The wrap-around of the increment at the 64-bit maximum, reachable in principle with New(math.MaxInt64), is not modelled.
- MaxLogger.ConcurrentMaxLogger.Start: the log line's text is not modelled, only whether it is printed.

## Findings

| source | as written | input that shows it | evidently intended | confidence | as-written member | corrected member |
|---|---|---|---|---|---|---|
| concurrentlimit.go:35-37 | NoLimit returns nil, and nilLimiter's lowercase start does not implement Limiter | any call of Start on NoLimit(), as in concurrentlimit_test.go:6-10 | a Limiter that always admits with a no-op release (the nilLimiter defined at concurrentlimit.go:39-45) | not executed | ConcurrentLimit.TestNoLimitAsWritten | ConcurrentLimit.TestNoLimit |
| concurrentlimit.go:126-129 | limitListenerForServer wraps srv.Handler even when it is nil; the wrapper then calls ServeHTTP on nil for every admitted request, which panics before the release at concurrentlimit.go:164 | a zero http.Server (nil Handler) given to ListenAndServe with requestLimit C: after C requests every request gets 429 | wrap what net/http would serve for a nil Handler, DefaultServeMux | not executed | HttpLimit.NilHandlerLeaks | HttpLimit.DefaultedHandler |
