/** The abstract behaviour shared by the bounded limiters of the repository
    (syncLimiter in concurrentlimit.go and concurrentLimiter in
    sleepyserver/sleepyserver.go): a fixed capacity `max`, a count `current`
    of operations in flight, `start` that admits iff one more fits, and `end`
    that gives a slot back and is fatal when no slot was taken. The classes
    that model the two Go types are proved to step exactly like this. */
module AdmissionCounter {

  datatype Counter = Counter(max: int, current: int)

  /** The central invariant: never negative, never over capacity. */
  predicate Within(c: Counter) { 0 <= c.current <= c.max }

  /** A limiter as constructed: nothing in flight. */
  function Initial(limit: int): Counter { Counter(limit, 0) }

  /** A start is admitted when one more operation still fits under max. */
  predicate Admits(c: Counter) { c.current + 1 <= c.max }

  function AfterStart(c: Counter): Counter
  {
    if Admits(c) then c.(current := c.current + 1) else c
  }

  /** An end decrements first and then panics if the counter went negative. */
  function AfterEnd(c: Counter): Counter { c.(current := c.current - 1) }

  predicate EndPanics(c: Counter) { AfterEnd(c).current < 0 }

  /** From a valid state, start rejects exactly when the limiter is full, and
      either way the invariant and the capacity are kept. */
  lemma StartKeepsWithin(c: Counter)
    requires Within(c)
    ensures !Admits(c) <==> c.current == c.max
    ensures Within(AfterStart(c)) && AfterStart(c).max == c.max
    ensures Admits(c) ==> AfterStart(c).current == c.current + 1
    ensures !Admits(c) ==> AfterStart(c) == c
  {
  }

  /** From a valid state, end is fatal exactly when nothing is in flight, and
      otherwise keeps the invariant. */
  lemma EndKeepsWithin(c: Counter)
    requires Within(c)
    ensures EndPanics(c) <==> c.current == 0
    ensures !EndPanics(c) ==> Within(AfterEnd(c)) && AfterEnd(c).current == c.current - 1
  {
  }

  // ---------------------------------------------------------------------------
  // Sequences of operations

  datatype Op = StartOp | EndOp

  /** The outcome of running a sequence of operations: the final counter and
      how many starts were admitted and rejected, or the index of the end
      that panicked. */
  datatype Run = Run(final: Counter, admitted: nat, rejected: nat) | Crashed(at: nat)

  function Shift(r: Run, admitted: nat, rejected: nat, steps: nat): Run
  {
    match r
    case Run(f, a, j) => Run(f, a + admitted, j + rejected)
    case Crashed(k) => Crashed(k + steps)
  }

  /** Runs the operations one at a time, each atomically, from left to right. */
  function Execute(c: Counter, ops: seq<Op>): Run
    decreases |ops|
  {
    if ops == [] then Run(c, 0, 0)
    else match ops[0]
      case StartOp =>
        Shift(Execute(AfterStart(c), ops[1..]), if Admits(c) then 1 else 0, if Admits(c) then 0 else 1, 1)
      case EndOp =>
        if EndPanics(c) then Crashed(0) else Shift(Execute(AfterEnd(c), ops[1..]), 0, 0, 1)
  }

  function CountStarts(ops: seq<Op>): nat
  {
    if ops == [] then 0 else (if ops[0] == StartOp then 1 else 0) + CountStarts(ops[1..])
  }

  function CountEnds(ops: seq<Op>): nat
  {
    if ops == [] then 0 else (if ops[0] == EndOp then 1 else 0) + CountEnds(ops[1..])
  }

  /** Every sequence of starts and ends that does not panic keeps
      0 <= current <= max, never changes max, accounts for every start, and
      leaves exactly (admitted starts - ends) more operations in flight. */
  lemma {:induction false} ExecuteKeepsWithin(c: Counter, ops: seq<Op>)
    requires Within(c)
    ensures Execute(c, ops).Run? ==>
      var r := Execute(c, ops);
      && Within(r.final)
      && r.final.max == c.max
      && r.admitted + r.rejected == CountStarts(ops)
      && r.final.current == c.current + r.admitted - CountEnds(ops)
    ensures Execute(c, ops).Crashed? ==> Execute(c, ops).at < |ops|
    decreases |ops|
  {
    if ops != [] {
      match ops[0]
      case StartOp =>
        ExecuteKeepsWithin(AfterStart(c), ops[1..]);
      case EndOp =>
        if !EndPanics(c) {
          ExecuteKeepsWithin(AfterEnd(c), ops[1..]);
        }
    }
  }

  /** More ends than the operations in flight plus the starts offered can
      never all be absorbed: some end (a double or unmatched release) panics. */
  lemma UnmatchedEndPanics(c: Counter, ops: seq<Op>)
    requires Within(c)
    requires CountEnds(ops) > c.current + CountStarts(ops)
    ensures Execute(c, ops).Crashed?
  {
    ExecuteKeepsWithin(c, ops);
  }

  function Starts(n: nat): (ops: seq<Op>)
    ensures |ops| == n
  {
    seq(n, _ => StartOp)
  }

  /** While there is room, every start is admitted. */
  lemma {:induction false} StartsWhileRoom(c: Counter, n: nat, rest: seq<Op>)
    requires Within(c) && n <= c.max - c.current
    ensures Execute(c, Starts(n) + rest) == Shift(Execute(c.(current := c.current + n), rest), n, 0, n)
    decreases n
  {
    if n == 0 {
      assert Starts(0) + rest == rest;
      match Execute(c, rest) {
        case Run(_, _, _) =>
        case Crashed(_) =>
      }
      assert c.(current := c.current + 0) == c;
    } else {
      var ops := Starts(n) + rest;
      assert ops[0] == StartOp;
      assert ops[1..] == Starts(n - 1) + rest;
      var c' := AfterStart(c);
      assert c' == c.(current := c.current + 1);
      StartsWhileRoom(c', n - 1, rest);
      assert c'.(current := c'.current + (n - 1)) == c.(current := c.current + n);
    }
  }

  /** A fresh limiter of capacity C admits C starts and rejects the (C+1)-th;
      after one end, exactly one further start is admitted. */
  lemma CapacityScenario(limit: int)
    requires limit > 0
    ensures Execute(Initial(limit), Starts(limit) + [StartOp]) == Run(Counter(limit, limit), limit, 1)
    ensures Execute(Initial(limit), Starts(limit) + [EndOp, StartOp, StartOp]) == Run(Counter(limit, limit), limit + 1, 1)
  {
    var full := Counter(limit, limit);
    StartsWhileRoom(Initial(limit), limit, [StartOp]);
    assert Execute(full, [StartOp]) == Run(full, 0, 1) by {
      assert [StartOp][1..] == [];
    }
    StartsWhileRoom(Initial(limit), limit, [EndOp, StartOp, StartOp]);
    assert Execute(full, [EndOp, StartOp, StartOp]) == Run(full, 1, 1) by {
      var freed := Counter(limit, limit - 1);
      assert [EndOp, StartOp, StartOp][1..] == [StartOp, StartOp];
      assert [StartOp, StartOp][1..] == [StartOp];
      assert [StartOp][1..] == [];
      assert Execute(full, [StartOp]) == Run(full, 0, 1);
      assert Execute(freed, [StartOp, StartOp]) == Run(full, 1, 1);
    }
  }

  /** Releasing the only admitted operation twice is fatal at the second release. */
  lemma DoubleReleasePanics(limit: int)
    requires limit > 0
    ensures Execute(Initial(limit), [StartOp, EndOp, EndOp]) == Crashed(2)
    ensures Execute(Initial(limit), [EndOp]) == Crashed(0)
  {
    assert [StartOp, EndOp, EndOp][1..] == [EndOp, EndOp];
    assert [EndOp, EndOp][1..] == [EndOp];
  }
}
