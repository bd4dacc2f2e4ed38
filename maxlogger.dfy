/** concurrentMaxLogger, defined identically in sleepyserver/sleepyserver.go
    and limitserver/limitserver.go: the number of requests in flight and the
    largest number seen so far. The mutex is abstracted away: start and end
    each run atomically. */
module MaxLogger {
  import opened AdmissionCounter

  datatype Peak = Peak(max: int, current: int)

  /** What the logger keeps: never negative, never above the recorded peak. */
  predicate Tracks(p: Peak) { 0 <= p.current <= p.max }

  function Max(a: int, b: int): int { if a >= b then a else b }

  /** A start increments current and raises max when current exceeds it. */
  function AfterLogStart(p: Peak): Peak
  {
    var current := p.current + 1;
    if current > p.max then Peak(current, current) else p.(current := current)
  }

  /** An end decrements first and then panics if current went negative. */
  function AfterLogEnd(p: Peak): Peak { p.(current := p.current - 1) }

  predicate LogEndPanics(p: Peak) { AfterLogEnd(p).current < 0 }

  /** The logger after one request has started and finished: the peak
      counts the request, and `current` is back where it was. */
  function Served(p: Peak): (q: Peak)
    ensures q == AfterLogEnd(AfterLogStart(p))
    ensures Tracks(p) ==> Tracks(q) && q.max >= p.max && q.max > p.current
  {
    Peak(Max(p.max, p.current + 1), p.current)
  }

  /** The outcome of a sequence of starts and ends: the final state, or the
      index of the end that panicked. */
  datatype LogRun = Logged(final: Peak) | LogCrashed(at: nat)

  function ShiftLog(r: LogRun): LogRun
  {
    match r
    case Logged(_) => r
    case LogCrashed(k) => LogCrashed(k + 1)
  }

  function RunLog(p: Peak, ops: seq<Op>): LogRun
    decreases |ops|
  {
    if ops == [] then Logged(p)
    else match ops[0]
      case StartOp => ShiftLog(RunLog(AfterLogStart(p), ops[1..]))
      case EndOp => if LogEndPanics(p) then LogCrashed(0) else ShiftLog(RunLog(AfterLogEnd(p), ops[1..]))
  }

  /** The highest number of requests in flight at any point of a trace that
      starts with `current` in flight: the reference definition of a peak. */
  function HighWater(current: int, ops: seq<Op>): (h: int)
    ensures h >= current
    decreases |ops|
  {
    if ops == [] then current
    else Max(current, HighWater(if ops[0] == StartOp then current + 1 else current - 1, ops[1..]))
  }

  /** Along every trace that does not panic, the logger's `max` is exactly
      the larger of its old value and the high-water mark of the trace, so it
      never decreases and never falls below `current`; `current` ends as the
      starts minus the ends. */
  lemma {:induction false} RunLogRecordsPeak(p: Peak, ops: seq<Op>)
    requires Tracks(p)
    ensures RunLog(p, ops).Logged? ==>
      var f := RunLog(p, ops).final;
      && Tracks(f)
      && f.max == Max(p.max, HighWater(p.current, ops))
      && f.max >= p.max
      && f.current == p.current + CountStarts(ops) - CountEnds(ops)
    ensures RunLog(p, ops).LogCrashed? ==> RunLog(p, ops).at < |ops|
    decreases |ops|
  {
    if ops != [] {
      match ops[0]
      case StartOp =>
        RunLogRecordsPeak(AfterLogStart(p), ops[1..]);
      case EndOp =>
        if !LogEndPanics(p) {
          RunLogRecordsPeak(AfterLogEnd(p), ops[1..]);
        }
    }
  }

  class ConcurrentMaxLogger {
    var max: int
    var current: int

    function State(): Peak
      reads this
    {
      Peak(max, current)
    }

    ghost predicate Valid()
      reads this
    {
      Tracks(State())
    }

    /** The zero value of concurrentMaxLogger. */
    constructor ()
      ensures State() == Peak(0, 0) && Valid()
    {
      max, current := 0, 0;
    }

    /** start: one more request in flight; `logged` is whether it printed
        "new max requests=%d", which it does exactly when the peak rises. */
    method Start() returns (logged: bool)
      modifies this
      ensures State() == AfterLogStart(old(State()))
      ensures logged <==> max > old(max)
      ensures max == Max(old(max), current) && current == old(current) + 1
      ensures old(Valid()) ==> Valid()
    {
      current := current + 1;
      logged := false;
      if current > max {
        max := current;
        logged := true;
      }
    }

    /** end: one request fewer; `fatal` is the panic "bug: mismatched calls
        to startRequest/endRequest". The peak is never lowered. */
    method End() returns (fatal: bool)
      modifies this
      ensures State() == AfterLogEnd(old(State()))
      ensures fatal == LogEndPanics(old(State())) && max == old(max)
      ensures old(Valid()) && old(current) > 0 ==> !fatal && Valid()
    {
      current := current - 1;
      fatal := current < 0;
    }
  }

  /** Three overlapping requests and then one more after two have finished:
      the peak is 3, the fourth does not log, and the peak survives every end. */
  method PeakScenario() returns (peak: int, inFlight: int, loggedFourth: bool)
    ensures peak == 3 && inFlight == 2 && !loggedFourth
  {
    var logger := new ConcurrentMaxLogger();
    var l1 := logger.Start();
    var l2 := logger.Start();
    var l3 := logger.Start();
    var f1 := logger.End();
    var f2 := logger.End();
    loggedFourth := logger.Start();
    peak, inFlight := logger.max, logger.current;
  }
}
