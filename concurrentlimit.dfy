/** The Limiter of concurrentlimit.go: the bounded syncLimiter, the
    always-admitting variant, New and NoLimit. The mutex is abstracted away:
    each of Start and end runs atomically. */
module ConcurrentLimit {
  import opened GoLib
  import opened Protocols
  import opened AdmissionCounter

  /** The `end` function Start hands back: the limiter's own `end` method
      value, or the shared `doNothing` of the unlimited variant. */
  datatype Release = EndOf(limiter: SyncLimiter) | DoNothing

  /** Start's (func(), error) pair: a release action and no error, or no
      release action and an error. */
  datatype StartResult = Admitted(end: Release) | Refused(err: Error)

  /** The syncLimiter struct. The ghost fields record the release tokens
      that admitted starts handed out and that have not been used yet; Go's
      `end` carries no token, so they are bookkeeping for the proofs only. */
  class SyncLimiter {
    const max: int
    var current: int
    ghost var live: set<nat>
    ghost var issued: nat

    function State(): Counter
      reads this
    {
      Counter(max, current)
    }

    /** 0 <= current <= max */
    ghost predicate Valid()
      reads this
    {
      Within(State())
    }

    /** Each operation in flight holds exactly one unused token. */
    ghost predicate Accounted()
      reads this
    {
      current == |live| && forall t :: t in live ==> t < issued
    }

    /** A fresh syncLimiter with the given max and nothing in flight; only
        New builds one, after checking the limit. */
    constructor (limit: int)
      requires limit > 0
      ensures max == limit && current == 0 && live == {} && issued == 0
      ensures Valid() && Accounted()
    {
      max := limit;
      current := 0;
      live := {};
      issued := 0;
    }

    /** Admits iff current + 1 <= max; an admission takes a slot and hands
        out a fresh token, a rejection returns ErrLimited and changes nothing. */
    method Start() returns (r: StartResult, ghost token: nat)
      modifies this
      ensures State() == AfterStart(old(State()))
      ensures r == if Admits(old(State())) then Admitted(EndOf(this)) else Refused(ErrLimited)
      ensures r.Admitted? ==> token == old(issued) && live == old(live) + {token} && issued == old(issued) + 1
      ensures r.Admitted? && old(Accounted()) ==> token !in old(live)
      ensures r.Refused? ==> live == old(live) && issued == old(issued)
      ensures old(Valid()) ==> Valid()
      ensures old(Accounted()) ==> Accounted()
    {
      token := issued;
      var next := current + 1;
      if next > max {
        return Refused(ErrLimited), token;
      }
      current := next;
      live := live + {token};
      issued := issued + 1;
      r := Admitted(EndOf(this));
    }

    /** Gives the slot back; `fatal` is the panic "bug: mismatched calls to
        start/end", raised after the decrement (and with the mutex still
        held). Using a live token never panics and keeps the accounting; a
        stale token only panics when the counter drops below zero. */
    method End(ghost token: nat) returns (fatal: bool)
      modifies this
      ensures State() == AfterEnd(old(State()))
      ensures fatal == EndPanics(old(State()))
      ensures live == old(live) - {token} && issued == old(issued)
      ensures old(Valid()) && !fatal ==> Valid()
      ensures old(Accounted()) && token in old(live) ==> !fatal && Accounted()
    {
      current := current - 1;
      live := live - {token};
      fatal := current < 0;
      if old(Accounted()) && token in old(live) {
        assert |live| == |old(live)| - 1;
      }
    }
  }

  /** The Limiter interface and its two implementations. */
  datatype Limiter = Bounded(sync: SyncLimiter) | Unlimited

  function Footprint(l: Limiter): set<object>
  {
    if l.Bounded? then {l.sync} else {}
  }

  ghost predicate Valid(l: Limiter)
    reads Footprint(l)
  {
    l.Bounded? ==> l.sync.Valid() && l.sync.Accounted()
  }

  /** Limiter.Start. The unlimited variant always admits with `doNothing`. */
  method Start(l: Limiter) returns (r: StartResult, ghost token: nat)
    modifies Footprint(l)
    ensures l.Unlimited? ==> r == Admitted(DoNothing)
    ensures l.Bounded? ==>
      var s := l.sync;
      && s.State() == AfterStart(old(s.State()))
      && r == (if Admits(old(s.State())) then Admitted(EndOf(s)) else Refused(ErrLimited))
      && (r.Admitted? ==> s.live == old(s.live) + {token})
      && (r.Admitted? && old(s.Accounted()) ==> token !in old(s.live))
      && (r.Refused? ==> s.live == old(s.live))
    ensures old(Valid(l)) ==> Valid(l)
  {
    match l
    case Unlimited =>
      r, token := Admitted(DoNothing), 0;
    case Bounded(s) =>
      r, token := s.Start();
  }

  function ReleaseFootprint(end: Release): set<object>
  {
    if end.EndOf? then {end.limiter} else {}
  }

  /** Calls the release action Start handed out. `doNothing` never panics. */
  method Invoke(end: Release, ghost token: nat) returns (fatal: bool)
    modifies ReleaseFootprint(end)
    ensures end.DoNothing? ==> !fatal
    ensures end.EndOf? ==>
      var s := end.limiter;
      && s.State() == AfterEnd(old(s.State()))
      && fatal == EndPanics(old(s.State()))
      && s.live == old(s.live) - {token}
      && (old(s.Valid()) && old(s.Accounted()) && token in old(s.live) ==> !fatal && s.Valid() && s.Accounted())
  {
    match end
    case DoNothing =>
      fatal := false;
    case EndOf(s) =>
      fatal := s.End(token);
  }

  function NewPanicMessage(limit: int): string
  {
    "limit must be > 0: " + Itoa(limit)
  }

  /** New panics for limit <= 0 (the doc comment says "< 0", the code
      rejects zero too); otherwise a fresh bounded limiter with nothing in
      flight. */
  method New(limit: int) returns (o: Outcome<Limiter>)
    ensures limit <= 0 ==> o == Panic(NewPanicMessage(limit))
    ensures limit > 0 ==>
      && o.Done? && o.value.Bounded? && fresh(o.value.sync)
      && o.value.sync.State() == Initial(limit)
      && o.value.sync.live == {} && Valid(o.value)
  {
    if limit <= 0 {
      return Panic(NewPanicMessage(limit));
    }
    var s := new SyncLimiter(limit);
    o := Done(Bounded(s));
  }

  /** A limiter that permits any number of operations: the nilLimiter the
      package defines. (The code as written returns nil instead; see
      NoLimitAsWritten.) */
  function NoLimit(): (l: Limiter)
    ensures Footprint(l) == {} && Valid(l)
  {
    Unlimited
  }

  /** NoLimit as written returns nil: no Limiter at all, not even the
      always-admitting one. */
  function NoLimitAsWritten(): (l: Option<Limiter>)
    ensures l != Some(NoLimit()) && l.None?
  {
    None
  }

  const NilDereference: string := "runtime error: invalid memory address or nil pointer dereference"

  /** `limiter.Start()` on an interface value: a nil interface panics. */
  method StartVia(iface: Option<Limiter>) returns (o: Outcome<StartResult>, ghost token: nat)
    modifies if iface.Some? then Footprint(iface.value) else {}
    ensures iface.None? ==> o == Panic(NilDereference)
    ensures iface == Some(Unlimited) ==> o == Done(Admitted(DoNothing))
    ensures iface.Some? ==> o.Done?
  {
    if iface.None? {
      return Panic(NilDereference), 0;
    }
    var r;
    r, token := Start(iface.value);
    o := Done(r);
  }

  /** TestNoLimit against NoLimit as written: its very first Start panics. */
  method TestNoLimitAsWritten() returns (first: Outcome<StartResult>)
    ensures first == Panic(NilDereference)
  {
    var limiter := NoLimitAsWritten();
    ghost var token;
    first, token := StartVia(limiter);
  }

  /** TestNoLimit against the always-admitting limiter, for `n` operations:
      every Start succeeds with a (non-nil) release, and every release
      collected can be called afterwards without a panic. */
  method TestNoLimit(n: nat) returns (errors: nat, endFuncs: seq<Release>, fatal: bool)
    ensures errors == 0 && |endFuncs| == n && !fatal
    ensures forall k :: 0 <= k < n ==> endFuncs[k] == DoNothing
  {
    var limiter := NoLimit();
    endFuncs, errors := [], 0;
    var i := 0;
    while i < n
      invariant 0 <= i <= n && |endFuncs| == i && errors == 0
      invariant forall k :: 0 <= k < |endFuncs| ==> endFuncs[k] == DoNothing
    {
      var r, token := Start(limiter);
      errors := errors + if r.Refused? then 1 else 0;
      if r.Admitted? {
        endFuncs := endFuncs + [r.end];
      }
      i := i + 1;
    }
    fatal := false;
    for k := 0 to |endFuncs|
      invariant !fatal
    {
      var f := Invoke(endFuncs[k], 0);
      fatal := fatal || f;
    }
  }

  /** A fresh limiter of capacity `limit` admits `limit` starts and refuses
      the next; after one release exactly one further start is admitted. */
  method CapacityScenario(limit: int) returns (admitted: nat, overflow: StartResult, releaseFatal: bool, again: StartResult, beyond: StartResult)
    requires limit > 0
    ensures admitted == limit
    ensures overflow == Refused(ErrLimited) && !releaseFatal && again.Admitted? && beyond == Refused(ErrLimited)
  {
    var s := new SyncLimiter(limit);
    admitted := 0;
    while admitted < limit
      invariant admitted <= limit
      invariant s.State() == Counter(limit, admitted) && s.Accounted()
    {
      var r, token := s.Start();
      admitted := admitted + 1;
    }
    ghost var token;
    overflow, token := s.Start();
    ghost var held :| held in s.live;
    releaseFatal := s.End(held);
    again, token := s.Start();
    beyond, token := s.Start();
  }

  /** A release repeated while another operation is still in flight goes
      unnoticed: the counter cannot tell the tokens apart, so the panic
      only comes at the other operation's legitimate release. */
  method RepeatedReleaseScenario() returns (repeatPanicked: bool, laterPanicked: bool)
    ensures !repeatPanicked && laterPanicked
  {
    var s := new SyncLimiter(2);
    var r1, a := s.Start();
    var r2, b := s.Start();
    var first := s.End(a);
    repeatPanicked := s.End(a);
    laterPanicked := s.End(b);
  }
}
