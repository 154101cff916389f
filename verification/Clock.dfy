/** Epoch seconds: their decimal text, and their difference as Go computes it. */
module Clock {
  import opened Basics

  const MAX64 := 0x7FFF_FFFF_FFFF_FFFF
  const MIN64 := -0x8000_0000_0000_0000

  predicate Int64(x: int) { MIN64 <= x <= MAX64 }

  // Decimal text

  function Digit(d: int): char
    requires 0 <= d < 10
  {
    '0' + d as char
  }

  function Digits(n: nat): string {
    if n < 10 then [Digit(n)] else Digits(n / 10) + [Digit(n % 10)]
  }

  function FormatInt(n: int): string {
    if n < 0 then "-" + Digits(-n) else Digits(n)
  }

  function ParseDigits(s: string): Option<nat> {
    if s == [] then None
    else
      var last := s[|s| - 1];
      if !('0' <= last <= '9') then None
      else if |s| == 1 then Some((last - '0') as nat)
      else
        var front := ParseDigits(s[..|s| - 1]);
        if front.None? then None else Some(10 * front.value + (last - '0') as nat)
  }

  /** Base 10, 64 bits: an optional sign and at least one digit; anything else is an error. */
  function ParseInt(s: string): Option<int> {
    if s == [] then None
    else
      var signed := s[0] == '-' || s[0] == '+';
      var u := ParseDigits(if signed then s[1..] else s);
      if u.None? then None
      else
        var v: int := u.value;
        var n := if s[0] == '-' then -v else v;
        if Int64(n) then Some(n) else None
  }

  lemma {:induction false} DigitsParse(n: nat)
    ensures ParseDigits(Digits(n)) == Some(n)
    ensures |Digits(n)| > 0 && '0' <= Digits(n)[0] <= '9'
  {
    if n >= 10 {
      DigitsParse(n / 10);
      var s := Digits(n);
      assert s[..|s| - 1] == Digits(n / 10);
    }
  }

  /** A formatted timestamp reads back as itself. */
  lemma ParseOfFormat(n: int)
    requires Int64(n)
    ensures ParseInt(FormatInt(n)) == Some(n)
  {
    if n < 0 {
      DigitsParse(-n);
      assert FormatInt(n)[1..] == Digits(-n);
    } else {
      DigitsParse(n);
    }
  }

  lemma {:induction false} ParsesDigitsExactly(s: string)
    ensures ParseDigits(s).Some? <==> s != [] && forall i :: 0 <= i < |s| ==> '0' <= s[i] <= '9'
  {
    if s != [] { ParsesDigitsExactly(s[..|s| - 1]); }
  }

  /** A label is read only if it is at least one digit after at most one sign, and the number fits. */
  lemma OnlyNumbersParse(s: string)
    requires ParseInt(s).Some?
    ensures var digits := if s[0] in "+-" then s[1..] else s;
            digits != [] && forall i :: 0 <= i < |digits| ==> '0' <= digits[i] <= '9'
    ensures Int64(ParseInt(s).value) && (ParseInt(s).value < 0 ==> s[0] == '-')
  {
    ParsesDigitsExactly(if s[0] in "+-" then s[1..] else s);
  }

  // Differences

  function Wrap64(x: int): int { (x - MIN64) % 0x1_0000_0000_0000_0000 + MIN64 }

  const NANOS := 1_000_000_000

  /** Seconds from year 1 to the epoch; `time.Unix` stores the sum in 64 bits. */
  const UNIX_TO_INTERNAL := 62135596800

  function UnixTime(epoch: int): int { Wrap64(epoch + UNIX_TO_INTERNAL) }

  /** Adding seconds saturates. */
  function AddSeconds(t: int, d: int): int {
    if Int64(t + d) then t + d else if d > 0 then MAX64 else -MAX64
  }

  /** `t.Sub(u)` in nanoseconds: exact if adding it back gives `t`, otherwise the nearest limit. */
  function Sub(t: int, u: int): int {
    var d := Wrap64(Wrap64(t - u) * NANOS);
    if AddSeconds(u, d / NANOS) == t && d % NANOS == 0 then d
    else if t < u then MIN64 else MAX64
  }

  function Truncate(d: int): int { if d >= 0 then d / NANOS else -(-d / NANOS) }

  /** Whole seconds from `epoch1` to `epoch2`. */
  function TimeDifference(epoch1: int, epoch2: int): int {
    Truncate(Sub(UnixTime(epoch2), UnixTime(epoch1)))
  }

  /** Epochs that `time.Unix` represents without wrapping, from 1970 on. */
  predicate InRange(epoch: int) { 0 <= epoch <= MAX64 - UNIX_TO_INTERNAL }

  const MAX_SECONDS := 9223372036

  lemma WrapInside(x: int)
    requires Int64(x)
    ensures Wrap64(x) == x
  {
  }

  lemma WrapIsInt64(x: int)
    ensures Int64(Wrap64(x))
  {
  }

  lemma SubExact(t: int, u: int)
    requires 0 <= t <= MAX64 && 0 <= u <= MAX64 && -MAX_SECONDS <= t - u <= MAX_SECONDS
    ensures Sub(t, u) == (t - u) * NANOS
  {
    var diff := t - u;
    WrapInside(diff);
    assert Int64(diff * NANOS);
    WrapInside(diff * NANOS);
    MultipleOfNanos(diff);
  }

  lemma MultipleOfNanos(x: int)
    ensures (x * NANOS) / NANOS == x && (x * NANOS) % NANOS == 0
  {
  }

  lemma SubSaturates(t: int, u: int)
    requires 0 <= t <= MAX64 && 0 <= u <= MAX64 && !(-MAX_SECONDS <= t - u <= MAX_SECONDS)
    ensures Sub(t, u) == if t < u then MIN64 else MAX64
  {
    var diff := t - u;
    WrapInside(diff);
    var d := Wrap64(diff * NANOS);
    WrapIsInt64(diff * NANOS);
    assert d == NANOS * (d / NANOS) + d % NANOS;
  }

  /** For all epochs in range the difference is the exact one, cut off at about 292 years. */
  lemma DifferenceIsClamped(epoch1: int, epoch2: int)
    requires InRange(epoch1) && InRange(epoch2)
    ensures TimeDifference(epoch1, epoch2) ==
            if epoch2 - epoch1 > MAX_SECONDS then MAX_SECONDS
            else if epoch2 - epoch1 < -MAX_SECONDS then -MAX_SECONDS
            else epoch2 - epoch1
  {
    var t, u := epoch2 + UNIX_TO_INTERNAL, epoch1 + UNIX_TO_INTERNAL;
    WrapInside(t);
    WrapInside(u);
    if -MAX_SECONDS <= t - u <= MAX_SECONDS {
      SubExact(t, u);
      MultipleOfNanos(t - u);
      MultipleOfNanos(u - t);
    } else {
      SubSaturates(t, u);
    }
  }

  /** So the comparison with the grace period is that of exact subtraction. */
  lemma GraceIsExact(epoch1: int, epoch2: int)
    requires InRange(epoch1) && InRange(epoch2)
    ensures TimeDifference(epoch1, epoch2) >= 60 <==> epoch2 - epoch1 >= 60
  {
    DifferenceIsClamped(epoch1, epoch2);
  }
}
