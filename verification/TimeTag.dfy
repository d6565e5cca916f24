/** Time tags: whole seconds and ticks, kept apart by a division that truncates toward zero
    and a 32-bit quotient. */
module TimeTags {
  const TPS: int := 1000000000

  datatype Time = Time(fsecs: int, ticks: int)

  /** C++ integer division. */
  function TruncDiv(a: int): int {
    if a >= 0 then a / TPS else -((-a) / TPS)
  }

  /** Conversion of a quotient to a 32-bit int. */
  function ToInt32(n: int): int {
    (n + 0x8000_0000) % 0x1_0000_0000 - 0x8000_0000
  }

  function Normalized(t: Time): Time {
    var q := ToInt32(TruncDiv(t.ticks));
    var num := if q < 0 then q - 1 else q;
    Time(t.fsecs + num, t.ticks - num * TPS)
  }

  function FromTicks(ticks: int): Time {
    Normalized(Time(0, ticks))
  }

  function ToTicks(t: Time): int {
    t.fsecs * TPS + t.ticks
  }

  function Plus(a: Time, b: Time): Time {
    Normalized(Time(a.fsecs + b.fsecs, a.ticks + b.ticks))
  }

  function Minus(a: Time, b: Time): Time {
    Normalized(Time(a.fsecs - b.fsecs, a.ticks - b.ticks))
  }

  predicate Less(a: Time, b: Time) {
    if a.fsecs == b.fsecs then a.ticks < b.ticks else a.fsecs < b.fsecs
  }

  /** The whole seconds of a tick count fit the 32-bit quotient, with room to step down. */
  predicate InRange(ticks: int) {
    -0x8000_0000 < TruncDiv(ticks) < 0x8000_0000
  }

  /** The forms normalisation gives a bare tick count: below one negative second the ticks
      are in (0, TPS], above it they keep the sign of the count. No such form has -1 whole
      seconds. */
  predicate Canonical(t: Time) {
    || (t.fsecs >= 0 && 0 <= t.ticks < TPS)
    || (t.fsecs == 0 && -TPS < t.ticks < 0)
    || (t.fsecs <= -2 && 0 < t.ticks <= TPS)
  }

  /** Moving seconds between the fields never changes the time. */
  lemma NormalizeKeepsTime(t: Time)
    ensures ToTicks(Normalized(t)) == ToTicks(t)
  {
    var q := ToInt32(TruncDiv(t.ticks));
    var num := if q < 0 then q - 1 else q;
    assert (t.fsecs + num) * TPS == t.fsecs * TPS + num * TPS;
  }

  lemma RoundTrip(ticks: int)
    ensures ToTicks(FromTicks(ticks)) == ticks
  {
    NormalizeKeepsTime(Time(0, ticks));
  }

  /** += and -= are integer addition and subtraction. */
  lemma ArithmeticIsExact(a: Time, b: Time)
    ensures ToTicks(Plus(a, b)) == ToTicks(a) + ToTicks(b)
    ensures ToTicks(Minus(a, b)) == ToTicks(a) - ToTicks(b)
  {
    NormalizeKeepsTime(Time(a.fsecs + b.fsecs, a.ticks + b.ticks));
    NormalizeKeepsTime(Time(a.fsecs - b.fsecs, a.ticks - b.ticks));
  }

  lemma FromTicksCanonical(ticks: int)
    requires InRange(ticks)
    ensures Canonical(FromTicks(ticks))
  {
  }

  /** On canonical tags the two comparison operators are those of the tick counts. */
  lemma OrderIsInteger(a: Time, b: Time)
    requires Canonical(a) && Canonical(b)
    ensures Less(a, b) <==> ToTicks(a) < ToTicks(b)
    ensures a == b <==> ToTicks(a) == ToTicks(b)
  {
    assert (a.fsecs - b.fsecs) * TPS == a.fsecs * TPS - b.fsecs * TPS;
  }

  /** from_ticks is strictly monotone over its range, and its results are the only canonical
      form of their time. */
  lemma FromTicksMonotone(x: int, y: int)
    requires InRange(x) && InRange(y)
    ensures Less(FromTicks(x), FromTicks(y)) <==> x < y
    ensures FromTicks(x) == FromTicks(y) <==> x == y
  {
    FromTicksCanonical(x);
    FromTicksCanonical(y);
    RoundTrip(x);
    RoundTrip(y);
    OrderIsInteger(FromTicks(x), FromTicks(y));
  }

  /** A tag equals the one from_ticks makes of its time exactly when it is canonical. */
  lemma CanonicalExact(t: Time)
    requires InRange(ToTicks(t))
    ensures Canonical(t) <==> t == FromTicks(ToTicks(t))
  {
    FromTicksCanonical(ToTicks(t));
    RoundTrip(ToTicks(t));
    if Canonical(t) { OrderIsInteger(t, FromTicks(ToTicks(t))); }
  }

  /** Which whole seconds f go with which sum or difference s of two canonical tick fields:
      when the fields have opposite signs, normalisation does not carry between them. */
  predicate SumOk(f: int, s: int) {
    if s <= -TPS then f <= 0 || (f >= 2 && s < -TPS)
    else if s < 0 then f == 0
    else if s < TPS then f >= 0 || (f <= -2 && s > 0)
    else if s < 2 * TPS then f >= -1 || (f <= -3 && s > TPS)
    else f >= -2
  }

  lemma NormalizedForm(t: Time)
    requires -2 * TPS < t.ticks <= 2 * TPS
    ensures Canonical(Normalized(t)) <==> SumOk(t.fsecs, t.ticks)
  {
    var s := t.ticks;
    if s <= -TPS {
      assert TruncDiv(s) == -1 && ToInt32(-1) == -1;
    } else if s < TPS {
      assert TruncDiv(s) == 0 && ToInt32(0) == 0;
    } else if s < 2 * TPS {
      assert TruncDiv(s) == 1 && ToInt32(1) == 1;
    } else {
      assert TruncDiv(s) == 2 && ToInt32(2) == 2;
    }
  }

  lemma CanonicalTicks(t: Time)
    requires Canonical(t)
    ensures -TPS < t.ticks <= TPS
  {
  }

  /** += and -= on canonical tags give a canonical tag exactly when the sums of their fields
      say so. */
  lemma ArithmeticCanonical(a: Time, b: Time)
    requires Canonical(a) && Canonical(b)
    ensures Canonical(Plus(a, b)) <==> SumOk(a.fsecs + b.fsecs, a.ticks + b.ticks)
    ensures Canonical(Minus(a, b)) <==> SumOk(a.fsecs - b.fsecs, a.ticks - b.ticks)
  {
    hide Canonical;
    hide Normalized;
    hide SumOk;
    CanonicalTicks(a);
    CanonicalTicks(b);
    NormalizedForm(Time(a.fsecs + b.fsecs, a.ticks + b.ticks));
    NormalizedForm(Time(a.fsecs - b.fsecs, a.ticks - b.ticks));
  }

  /** So it is on times that are not negative, for +=. */
  lemma PlusOfNonNegative(a: Time, b: Time)
    requires Canonical(a) && Canonical(b) && ToTicks(a) >= 0 && ToTicks(b) >= 0
    ensures Canonical(Plus(a, b))
  {
    ArithmeticCanonical(a, b);
  }

  /** Addition can leave that form: the same time, yet unequal and ordered after it. */
  lemma PlusLeavesCanonical()
    ensures var t := Plus(Time(1, 0), Time(0, -5));
            && t == Time(1, -5) && !Canonical(t)
            && ToTicks(t) == ToTicks(FromTicks(999999995))
            && Less(FromTicks(999999995), t)
  {
    assert TruncDiv(-5) == 0 && TruncDiv(999999995) == 0 && ToInt32(0) == 0;
    assert FromTicks(999999995) == Time(0, 999999995);
  }

  /** Past the range the quotient wraps, and a later time compares as earlier. */
  lemma OutOfRangeReverses()
    ensures var late := 0x1_0000_0000 * TPS;
            !InRange(late) && TPS < late && Less(FromTicks(late), FromTicks(TPS))
  {
    assert TruncDiv(0x1_0000_0000 * TPS) == 0x1_0000_0000;
  }

  class TimeTag {
    var fsecs: int
    var ticks: int

    function Value(): Time
      reads this
    {
      Time(fsecs, ticks)
    }

    constructor ()
      ensures Value() == Time(0, 0)
    {
      fsecs, ticks := 0, 0;
    }

    method Normalize()
      modifies this
      ensures Value() == Normalized(old(Value()))
      ensures ToTicks(Value()) == old(ToTicks(Value()))
    {
      NormalizeKeepsTime(Value());
      var num := ToInt32(TruncDiv(ticks));
      if num < 0 { num := num - 1; }
      fsecs := fsecs + num;
      ticks := ticks - num * TPS;
    }

    method AddAssign(rhs: TimeTag)
      modifies this
      ensures Value() == Plus(old(Value()), old(rhs.Value()))
      ensures ToTicks(Value()) == old(ToTicks(Value())) + old(ToTicks(rhs.Value()))
    {
      ArithmeticIsExact(Value(), rhs.Value());
      fsecs, ticks := fsecs + rhs.fsecs, ticks + rhs.ticks;
      Normalize();
    }

    method SubAssign(rhs: TimeTag)
      modifies this
      ensures Value() == Minus(old(Value()), old(rhs.Value()))
      ensures ToTicks(Value()) == old(ToTicks(Value())) - old(ToTicks(rhs.Value()))
    {
      ArithmeticIsExact(Value(), rhs.Value());
      fsecs, ticks := fsecs - rhs.fsecs, ticks - rhs.ticks;
      Normalize();
    }
  }
}
