/** Behaviour of the Go language and standard library that the model relies on:
    fixed-width integer conversions, strconv.Atoi / strconv.Itoa in base 10,
    strings.HasPrefix / strings.HasSuffix, and fmt.Sprintf for the `%s` verb. */
module GoLib {

  datatype Option<+T> = None | Some(value: T)

  datatype Result<+T, +E> = Ok(value: T) | Err(error: E)

  const MinInt64: int := -0x8000_0000_0000_0000
  const MaxInt64: int := 0x7fff_ffff_ffff_ffff
  const MaxUint64: int := 0xffff_ffff_ffff_ffff
  const TwoTo64: int := 0x1_0000_0000_0000_0000
  const TwoTo32: int := 0x1_0000_0000

  predicate IsInt64(x: int) { MinInt64 <= x <= MaxInt64 }

  /** The int64 value Go produces for a mathematically exact result `x`:
      two's complement wrap-around modulo 2^64. */
  function WrapInt64(x: int): (r: int)
    ensures IsInt64(r)
    ensures (x - r) % TwoTo64 == 0
    ensures IsInt64(x) ==> r == x
  {
    (x - MinInt64) % TwoTo64 + MinInt64
  }

  /** Go's conversion uint32(x) of an int: the low 32 bits. */
  function Uint32(x: int): (r: int)
    ensures 0 <= r < TwoTo32
    ensures (x - r) % TwoTo32 == 0
    ensures 0 <= x < TwoTo32 ==> r == x
  {
    x % TwoTo32
  }

  // ---------------------------------------------------------------------------
  // Decimal digits

  predicate IsDigit(c: char) { '0' <= c <= '9' }

  predicate AllDigits(s: string) { forall i :: 0 <= i < |s| ==> IsDigit(s[i]) }

  function DigitValue(c: char): nat
    requires IsDigit(c)
  {
    c as int - '0' as int
  }

  function DigitChar(d: nat): (c: char)
    requires d < 10
    ensures IsDigit(c) && DigitValue(c) == d
  {
    ('0' as int + d) as char
  }

  /** The number a string of decimal digits denotes, most significant digit first. */
  function DecimalValue(ds: string): nat
    requires AllDigits(ds)
  {
    if ds == [] then 0 else DecimalValue(ds[..|ds| - 1]) * 10 + DigitValue(ds[|ds| - 1])
  }

  /** strconv.FormatUint(n, 10): shortest decimal rendering, no leading zeros. */
  function FormatNat(n: nat): (s: string)
    ensures |s| > 0 && AllDigits(s)
    ensures DecimalValue(s) == n
    ensures s[0] == '0' ==> n == 0
  {
    if n < 10 then [DigitChar(n)]
    else
      var p := FormatNat(n / 10);
      var s := p + [DigitChar(n % 10)];
      assert s[..|s| - 1] == p;
      s
  }

  /** strconv.Itoa, which is also what `%d` prints for an int. */
  function Itoa(n: int): string
  {
    if n < 0 then "-" + FormatNat(-n) else FormatNat(n)
  }

  // ---------------------------------------------------------------------------
  // strconv.Atoi (on a 64-bit platform)

  /** The `Err` field of a strconv.NumError. */
  datatype NumErrorKind = ErrSyntax | ErrRange

  /** The digit loop of strconv.ParseUint(s, 10, 64), started at index `i`
      with `n` accumulated so far: a syntax error at the first character that
      is not a digit, a range error at the first digit that takes the value
      past 2^64 - 1, whichever comes first. */
  function ScanUint64(s: string, i: nat, n: nat): Result<nat, NumErrorKind>
    requires i <= |s|
    decreases |s| - i
  {
    if i == |s| then Ok(n)
    else if !IsDigit(s[i]) then Err(ErrSyntax)
    else if n * 10 + DigitValue(s[i]) > MaxUint64 then Err(ErrRange)
    else ScanUint64(s, i + 1, n * 10 + DigitValue(s[i]))
  }

  /** Index of the first character after an optional leading sign. */
  function SignLength(s: string): nat
  {
    if s != [] && (s[0] == '+' || s[0] == '-') then 1 else 0
  }

  /** strconv.Atoi: an optional `+` or `-` followed by at least one decimal
      digit and nothing else, denoting a value that fits in an int64.
      (Atoi's short-input fast path and its ParseInt fallback give the same
      answers, so one definition covers both.) */
  function Atoi(s: string): (r: Result<int, NumErrorKind>)
    ensures r.Ok? ==> IsInt64(r.value)
    ensures r.Ok? ==> SignLength(s) < |s| && AllDigits(s[SignLength(s)..])
    ensures r.Ok? ==> r.value == SignedDecimal(s)
    ensures SignLength(s) < |s| && AllDigits(s[SignLength(s)..]) && IsInt64(SignedDecimal(s)) ==> r.Ok?
  {
    var k := SignLength(s);
    if k == |s| then Err(ErrSyntax)
    else
      ScanFrom(s, k);
      var neg := s[0] == '-';
      match ScanUint64(s, k, 0)
      case Err(e) => Err(e)
      case Ok(u) =>
        ScanOkAllDigits(s, k, 0);
        if !neg && u > MaxInt64 then Err(ErrRange)
        else if neg && u > -MinInt64 then Err(ErrRange)
        else
          var v: int := if neg then -(u as int) else u;
          Ok(v)
  }

  /** The value a sign-prefixed digit string denotes. */
  function SignedDecimal(s: string): int
    requires SignLength(s) < |s| && AllDigits(s[SignLength(s)..])
  {
    var magnitude: int := DecimalValue(s[SignLength(s)..]);
    if s[0] == '-' then -magnitude else magnitude
  }

  /** A successful scan from `i`, started with the value of the digits
      from `start` to `i`, yields the value of all the digits from `start`. */
  lemma {:induction false} ScanValue(s: string, start: nat, i: nat)
    requires start <= i <= |s|
    requires AllDigits(s[start..i])
    ensures ScanUint64(s, i, DecimalValue(s[start..i])).Ok? ==>
      AllDigits(s[start..]) && ScanUint64(s, i, DecimalValue(s[start..i])).value == DecimalValue(s[start..])
    decreases |s| - i
  {
    if i == |s| {
      assert s[start..i] == s[start..];
    } else if IsDigit(s[i]) {
      assert s[start..i + 1][..i - start] == s[start..i];
      assert AllDigits(s[start..i + 1]);
      ScanValue(s, start, i + 1);
    }
  }

  /** The digit loop from `k` succeeds with the digits' value exactly when
      they are all digits and fit in 64 bits. */
  lemma ScanFrom(s: string, k: nat)
    requires k <= |s|
    ensures ScanUint64(s, k, 0).Ok? ==> AllDigits(s[k..]) && ScanUint64(s, k, 0).value == DecimalValue(s[k..])
    ensures AllDigits(s[k..]) && DecimalValue(s[k..]) <= MaxUint64 ==> ScanUint64(s, k, 0) == Ok(DecimalValue(s[k..]))
  {
    assert s[k..k] == [];
    ScanValue(s, k, k);
    if AllDigits(s[k..]) && DecimalValue(s[k..]) <= MaxUint64 {
      ScanDigits(s, k, k);
    }
  }

  /** A successful scan from `i` saw only digits. */
  lemma {:induction false} ScanOkAllDigits(s: string, i: nat, n: nat)
    requires i <= |s|
    requires ScanUint64(s, i, n).Ok?
    ensures AllDigits(s[i..])
    decreases |s| - i
  {
    if i < |s| {
      ScanOkAllDigits(s, i + 1, n * 10 + DigitValue(s[i]));
      assert s[i..] == [s[i]] + s[i + 1..];
    }
  }

  /** The value of a prefix of a digit string never exceeds the value of the whole. */
  lemma {:induction false} DecimalValuePrefix(ds: string, k: nat)
    requires AllDigits(ds) && k <= |ds|
    ensures AllDigits(ds[..k]) && DecimalValue(ds[..k]) <= DecimalValue(ds)
    decreases |ds| - k
  {
    if k < |ds| {
      DecimalValuePrefix(ds, k + 1);
      assert ds[..k + 1][..k] == ds[..k];
      assert DecimalValue(ds[..k + 1]) == DecimalValue(ds[..k]) * 10 + DigitValue(ds[k]);
    } else {
      assert ds[..k] == ds;
    }
  }

  /** Scanning a digit string whose value fits in 64 bits yields that value. */
  lemma {:induction false} ScanDigits(s: string, start: nat, i: nat)
    requires start <= i <= |s|
    requires AllDigits(s[start..]) && DecimalValue(s[start..]) <= MaxUint64
    ensures AllDigits(s[start..i])
    ensures ScanUint64(s, i, DecimalValue(s[start..i])) == Ok(DecimalValue(s[start..]))
    decreases |s| - i
  {
    var ds := s[start..];
    assert s[start..i] == ds[..i - start];
    if i < |s| {
      assert s[start..i + 1] == ds[..i + 1 - start];
      assert s[start..i + 1][..i - start] == s[start..i];
      DecimalValuePrefix(ds, i + 1 - start);
      ScanDigits(s, start, i + 1);
    } else {
      assert ds[..i - start] == ds;
    }
  }

  /** Round trip: Atoi reads back every int64 that Itoa prints. */
  lemma AtoiItoa(n: int)
    requires IsInt64(n)
    ensures Atoi(Itoa(n)) == Ok(n)
  {
    var s := Itoa(n);
    var m := if n < 0 then -n else n;
    var digits := FormatNat(m);
    var k := if n < 0 then 1 else 0;
    assert s[k..] == digits;
    assert SignLength(s) == k;
    assert s[..0] == [];
    ScanDigits(s, k, k);
  }

  // ---------------------------------------------------------------------------
  // strings

  predicate HasPrefix(s: string, prefix: string)
  {
    |prefix| <= |s| && s[..|prefix|] == prefix
  }

  predicate HasSuffix(s: string, suffix: string)
  {
    |suffix| <= |s| && s[|s| - |suffix|..] == suffix
  }

  // ---------------------------------------------------------------------------
  // fmt.Sprintf

  /** fmt.Sprintf for a template whose only verb is `%s` and whose arguments
      are strings: each `%s` takes the next argument, and a `%s` with no
      argument left prints `%!s(MISSING)`. */
  function SprintfS(template: string, args: seq<string>): string
    decreases |template|
  {
    if template == [] then ""
    else if |template| >= 2 && template[0] == '%' && template[1] == 's' then
      if args == [] then "%!s(MISSING)" + SprintfS(template[2..], [])
      else args[0] + SprintfS(template[2..], args[1..])
    else [template[0]] + SprintfS(template[1..], args)
  }

  /** Text in which no verb can start. */
  predicate NoPercent(s: string)
  {
    forall i :: 0 <= i < |s| ==> s[i] != '%'
  }

  lemma NoPercentConcat(x: string, y: string)
    requires NoPercent(x) && NoPercent(y)
    ensures NoPercent(x + y)
  {
    assert forall i :: |x| <= i < |x + y| ==> (x + y)[i] == y[i - |x|];
  }

  /** Text without a `%` is copied through unchanged. */
  lemma {:induction false} SprintfLiteral(lit: string, rest: string, args: seq<string>)
    requires NoPercent(lit)
    ensures SprintfS(lit + rest, args) == lit + SprintfS(rest, args)
    decreases |lit|
  {
    if lit != [] {
      var t := lit + rest;
      assert t[0] == lit[0] && t[0] != '%';
      assert t[1..] == lit[1..] + rest;
      assert SprintfS(t, args) == [lit[0]] + SprintfS(lit[1..] + rest, args);
      SprintfLiteral(lit[1..], rest, args);
      assert lit == [lit[0]] + lit[1..];
    } else {
      assert lit + rest == rest;
    }
  }

  /** A `%s` preceded by verb-free text consumes exactly the next argument. */
  lemma SprintfVerb(lit: string, rest: string, arg: string, args: seq<string>)
    requires NoPercent(lit)
    ensures SprintfS(lit + "%s" + rest, [arg] + args) == lit + arg + SprintfS(rest, args)
  {
    assert lit + "%s" + rest == lit + ("%s" + rest);
    SprintfLiteral(lit, "%s" + rest, [arg] + args);
    assert ("%s" + rest)[0] == '%' && ("%s" + rest)[1] == 's';
    assert ("%s" + rest)[2..] == rest;
    assert ([arg] + args)[1..] == args;
  }
}
