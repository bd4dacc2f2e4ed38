/** Values that cross the boundary between the limiter and the two protocols
    it protects: Go errors, HTTP status codes and replies, gRPC status codes. */
module Protocols {
  import opened GoLib

  /** The gRPC status codes the core distinguishes (google.golang.org/grpc/codes). */
  datatype Code = OK | ResourceExhausted | Unknown

  const LimitedText: string := "exceeded limit of concurrent operations"
  const SleepyLimitedText: string := "Limiter.start: exceeded limit of concurrent requests"

  /** Go error values. Sentinels compare equal only to themselves, as Go's
      `err == ErrLimited` compares pointers. */
  datatype Error =
    | ErrLimited                                   // concurrentlimit.ErrLimited
    | SleepyErrLimited                             // errLimited in sleepyserver
    | StatusError(code: Code, message: string)     // status.Error(code, message)
    | NumError(fn: string, num: string, kind: NumErrorKind)  // from strconv
    | DurationError(input: string)                 // from time.ParseDuration
    | ProtoDurationError                           // from ptypes.Duration
    | ListenError(addr: string)                    // from net.Listen
    | Errorf(message: string)                      // fmt.Errorf with this text

  /** Result of a Go function returning (T, error). */
  type Res<T> = Result<T, Error>

  /** Result of a Go function that may also panic. */
  datatype Outcome<+T> = Done(value: T) | Failed(error: Error) | Panic(message: string)

  /** status.Code(err): OK for nil, the code of a status error, Unknown otherwise. */
  function CodeOf(err: Option<Error>): Code
  {
    match err
    case None => OK
    case Some(StatusError(code, _)) => code
    case Some(_) => Unknown
  }

  const StatusNotFound := 404
  const StatusMethodNotAllowed := 405
  const StatusTooManyRequests := 429
  const StatusInternalServerError := 500

  /** What an http.Error reply carries as its plain-text body. */
  datatype Body = Text(text: string) | TextOf(err: Error)

  /** What an HTTP handler produced:
      - `Written`: the application handler ran and wrote its own response (200);
      - `ErrorReply`: http.Error(w, body, status);
      - `Aborted`: the handler panicked; net/http recovers and drops the connection. */
  datatype HttpReply = Written | ErrorReply(status: int, body: Body) | Aborted
}
