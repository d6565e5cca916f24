/** How long the buffers of an output port are made. */
module Allocator {
  import opened Memory

  const AHH_TOO_MANY_BYTES: nat := 32 * 1024 * 1024

  /** The larger of the wanted minimum and every downstream reserve. */
  function SuperReserve(hints: seq<nat>, atLeast: nat): (r: nat)
    ensures r >= atLeast && (forall h :: h in hints ==> r >= h)
    ensures r == atLeast || r in hints
  {
    if hints == [] then atLeast
    else
      var rest := SuperReserve(hints[..|hints| - 1], atLeast);
      var h := hints[|hints| - 1];
      assert hints == hints[..|hints| - 1] + [h];
      if rest < h then h else rest
  }

  /** The length after k rounds of the growing loop. */
  function Grown(min: nat, k: nat): nat {
    min + k * min
  }

  /** The growing loop stops exactly when some reserve is positive or nothing is hinted. */
  lemma GrowthStops(min: nat, hint: nat)
    ensures (exists k: nat :: Grown(min, k) >= hint) <==> (min > 0 || hint == 0)
  {
    if min > 0 {
      GrowsPast(min, hint);
      assert Grown(min, hint) >= hint;
    } else {
      assert Grown(min, 0) == 0;
      forall k: nat ensures Grown(0, k) == 0 {}
    }
  }

  lemma {:induction false} GrowsPast(min: nat, k: nat)
    requires min > 0
    ensures Grown(min, k) >= k
  {
    if k > 0 {
      GrowsPast(min, k - 1);
      assert Grown(min, k) == Grown(min, k - 1) + min;
    }
  }

  /** n is the least positive multiple of min that is at least hint. */
  ghost predicate LeastMultiple(n: nat, min: nat, hint: nat) {
    && min > 0 && n >= hint && n >= min && n % min == 0
    && forall k: nat {:trigger Grown(min, k)} :: Grown(min, k) >= hint ==> n <= Grown(min, k)
  }

  function Cap(atMost: nat): nat {
    if atMost != 0 then atMost else AHH_TOO_MANY_BYTES
  }

  datatype Recommendation = Length(bytes: nat) | NeverReturns

  /** recommend_length, as a total function of its arguments: the outcome that the call does
      not return is one of its results. */
  method RecommendLength(hints: seq<nat>, hintBytes: nat, atLeast: nat, atMost: nat) returns (r: Recommendation)
    ensures r.NeverReturns? <==> forall k: nat :: Grown(SuperReserve(hints, atLeast), k) < hintBytes
    ensures r.Length? && SuperReserve(hints, atLeast) > 0 ==>
              exists n: nat :: LeastMultiple(n, SuperReserve(hints, atLeast), hintBytes)
                               && r.bytes == if n < Cap(atMost) then n else Cap(atMost)
    ensures r.Length? && SuperReserve(hints, atLeast) == 0 ==> r.bytes == 0
    ensures r.Length? ==> r.bytes <= if atMost != 0 then atMost else 33554432
    ensures r.Length? && r.bytes < (if atMost != 0 then atMost else 33554432) && r.bytes > 0 ==>
              LeastMultiple(r.bytes, SuperReserve(hints, atLeast), hintBytes)
    ensures r.Length? ==>
              ((forall h :: h in hints ==> r.bytes >= h) && r.bytes >= atLeast <==> Cap(atMost) >= SuperReserve(hints, atLeast))
  {
    var min := LargestReserve(hints, atLeast);
    GrowthStops(min, hintBytes);
    if min == 0 && hintBytes > 0 { return NeverReturns; }
    var n := GrowToHint(min, hintBytes);
    hide Grown;
    hide LeastMultiple;
    r := Length(if atMost != 0 then (if n < atMost then n else atMost)
                else (if n < AHH_TOO_MANY_BYTES then n else AHH_TOO_MANY_BYTES));
  }

  /** The first loop: the least length that covers every reserve. */
  method LargestReserve(hints: seq<nat>, atLeast: nat) returns (min: nat)
    ensures min == SuperReserve(hints, atLeast)
  {
    min := atLeast;
    var i := 0;
    while i < |hints|
      invariant i <= |hints| && min == SuperReserve(hints[..i], atLeast)
    {
      assert hints[..i + 1][..i] == hints[..i] && hints[..i + 1][i] == hints[i];
      if min < hints[i] { min := hints[i]; }
      i := i + 1;
    }
    assert hints[..|hints|] == hints;
  }

  /** The second loop: whole multiples of that length until the hint is reached. */
  method GrowToHint(min: nat, hintBytes: nat) returns (n: nat)
    requires min > 0 || hintBytes == 0
    ensures if min > 0 then LeastMultiple(n, min, hintBytes) else n == 0
    ensures n >= min
  {
    n := min;
    ghost var k: nat := 0;
    while hintBytes > n
      invariant n == Grown(min, k)
      invariant min > 0 || hintBytes == 0
      invariant k == 0 || Grown(min, k - 1) < hintBytes
      decreases hintBytes - n
    {
      assert Grown(min, k + 1) == Grown(min, k) + min;
      n := n + min;
      k := k + 1;
    }
    if min > 0 { GrownLeast(min, hintBytes, k); }
  }

  lemma GrownLeast(min: nat, hint: nat, k: nat)
    requires min > 0 && Grown(min, k) >= hint && (k == 0 || Grown(min, k - 1) < hint)
    ensures LeastMultiple(Grown(min, k), min, hint)
  {
    ModPeriod(0, k + 1, min);
    assert Grown(min, k) == (k + 1) * min;
    forall j: nat | Grown(min, j) >= hint
      ensures Grown(min, k) <= Grown(min, j)
    {
      if j < k { GrownMonotone(min, j, k - 1); } else { GrownMonotone(min, k, j); }
    }
  }

  lemma GrownMonotone(min: nat, a: nat, b: nat)
    requires a <= b
    ensures Grown(min, a) <= Grown(min, b)
  {
    assert b * min == a * min + (b - a) * min;
  }

  /** my_round_up_mult(num, mult): multiplies by mult before dividing by it. */
  function RoundUpMult(num: nat, mult: nat): nat
    requires mult > 0
  {
    (num * mult + mult - 1) / mult
  }

  /** It rounds nothing: whatever the multiple, the hint is its first argument. */
  lemma RoundUpMultIsIdentity(num: nat, mult: nat)
    requires mult > 0
    ensures RoundUpMult(num, mult) == num
  {
    DivModUnique(num * mult + mult - 1, mult, num, mult - 1);
  }
}
