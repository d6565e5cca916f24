/** Optional values, and the outcome of an operation whose run-time assertion may throw. */
module Results {
  datatype Option<+T> = None | Some(value: T)

  datatype Outcome<+T> = Ok(value: T) | AssertFailed
}

/** Byte memory as the buffer code sees it: regions of cells addressed by raw pointers.
    A flat region is an ordinary allocation. A ring region is mapped twice back to back,
    so a position and the position one ring length later name the same cell. */
module Memory {

  newtype byte = x: int | 0 <= x < 256

  datatype Address = Address(mem: nat, pos: nat) {
    function At(d: nat): Address {
      Address(mem, pos + d)
    }
  }

  datatype Region = Flat(cells: seq<byte>) | Ring(cells: seq<byte>) {
    /** The cell a position names. */
    function Cell(pos: nat): nat
      requires |cells| > 0
    {
      if Flat? then pos else pos % |cells|
    }
  }

  type Store = map<nat, Region>

  predicate Mapped(m: Store, a: Address) {
    a.mem in m && |m[a.mem].cells| > 0 && (m[a.mem].Flat? ==> a.pos < |m[a.mem].cells|)
  }

  function Peek(m: Store, a: Address): byte {
    if Mapped(m, a) then m[a.mem].cells[m[a.mem].Cell(a.pos)] else 0
  }

  function Read(m: Store, a: Address, n: nat): (r: seq<byte>)
    ensures |r| == n
    ensures forall d :: 0 <= d < n ==> r[d] == Peek(m, a.At(d))
  {
    seq(n, d requires 0 <= d < n => Peek(m, a.At(d)))
  }

  function Poke(m: Store, a: Address, b: byte): Store {
    if Mapped(m, a) then
      var r := m[a.mem];
      m[a.mem := r.(cells := r.cells[r.Cell(a.pos) := b])]
    else m
  }

  /** memcpy into memory, lowest address first. */
  function Write(m: Store, a: Address, data: seq<byte>): Store
    decreases |data|
  {
    if data == [] then m
    else Poke(Write(m, a, data[..|data| - 1]), a.At(|data| - 1), data[|data| - 1])
  }

  /** Two addresses of one cell. */
  ghost predicate Alias(m: Store, a: Address, b: Address) {
    && a.mem == b.mem && a.mem in m && |m[a.mem].cells| > 0
    && m[a.mem].Cell(a.pos) == m[a.mem].Cell(b.pos)
  }

  /** Same regions, same kinds, same sizes: only cell values may differ. */
  ghost predicate SameShape(m: Store, m': Store) {
    && m.Keys == m'.Keys
    && forall k :: k in m ==> m[k].Flat? == m'[k].Flat? && |m[k].cells| == |m'[k].cells|
  }

  lemma {:induction false} ModPeriod(x: nat, k: nat, n: nat)
    requires n > 0
    ensures (x + k * n) % n == x % n
    decreases k
  {
    if k > 0 {
      ModPeriod(x, k - 1, n);
      assert x + k * n == (x + (k - 1) * n) + n;
      assert ((x + (k - 1) * n) + n) % n == (x + (k - 1) * n) % n by { ModStep(x + (k - 1) * n, n); }
    }
  }

  lemma ModStep(x: nat, n: nat)
    requires n > 0
    ensures (x + n) % n == x % n
  {
    var q, r := x / n, x % n;
    assert x + n == (q + 1) * n + r;
    DivModUnique(x + n, n, q + 1, r);
  }

  lemma {:induction false} MulAtLeast(d: nat, n: int)
    requires n > 0 && d >= 1
    ensures d * n >= n
  {
    if d > 1 {
      MulAtLeast(d - 1, n);
      assert d * n == (d - 1) * n + n;
    }
  }

  lemma DivModUnique(x: nat, n: nat, q: nat, r: nat)
    requires n > 0 && r < n && x == q * n + r
    ensures x / n == q && x % n == r
  {
    var q' := x / n;
    assert x == q' * n + x % n;
    if q > q' {
      assert (q - q') * n == q * n - q' * n;
      MulAtLeast(q - q', n);
    } else if q < q' {
      assert (q' - q) * n == q' * n - q * n;
      MulAtLeast(q' - q, n);
    }
  }

  lemma ModShift(x: nat, y: nat, k: nat, n: nat)
    requires n > 0 && x % n == y % n
    ensures (x + k) % n == (y + k) % n
  {
    var r := x % n;
    ModPeriod(r + k, x / n, n);
    ModPeriod(r + k, y / n, n);
    assert x + k == (r + k) + (x / n) * n;
    assert y + k == (r + k) + (y / n) * n;
  }

  /** Positions less than a ring length apart are different cells. */
  lemma ModApart(x: nat, y: nat, n: nat)
    requires n > 0 && x < y < x + n
    ensures x % n != y % n
  {
    var q, r, k := x / n, x % n, y - x;
    if r + k < n {
      DivModUnique(y, n, q, r + k);
    } else {
      assert y == (q + 1) * n + (r + k - n);
      DivModUnique(y, n, q + 1, r + k - n);
    }
  }

  lemma AliasShift(m: Store, a: Address, b: Address, k: nat)
    requires Alias(m, a, b)
    ensures Alias(m, a.At(k), b.At(k))
  {
    if m[a.mem].Ring? {
      ModShift(a.pos, b.pos, k, |m[a.mem].cells|);
    }
  }

  lemma {:induction false} WriteShape(m: Store, a: Address, data: seq<byte>)
    ensures SameShape(m, Write(m, a, data))
    decreases |data|
  {
    if data != [] { WriteShape(m, a, data[..|data| - 1]); }
  }

  lemma PokePeek(m: Store, a: Address, b: byte, x: Address)
    requires Mapped(m, a)
    ensures Peek(Poke(m, a, b), x) == if Alias(m, a, x) && Mapped(m, x) then b else Peek(m, x)
  {
  }

  /** A write changes no cell outside its range. */
  lemma {:induction false} WriteElsewhere(m: Store, a: Address, data: seq<byte>, x: Address)
    requires forall d :: 0 <= d < |data| ==> !Alias(m, a.At(d), x)
    ensures Peek(Write(m, a, data), x) == Peek(m, x)
    decreases |data|
  {
    if data != [] {
      var front := data[..|data| - 1];
      WriteElsewhere(m, a, front, x);
      WriteShape(m, a, front);
      assert !Alias(m, a.At(|data| - 1), x);
    }
  }

  /** The write range lies in mapped memory and does not lap itself. */
  ghost predicate Writable(m: Store, a: Address, n: nat) {
    && (forall d {:trigger a.At(d)} :: 0 <= d < n ==> Mapped(m, a.At(d)))
    && (forall d, e {:trigger a.At(d), a.At(e)} :: 0 <= d < e < n ==> !Alias(m, a.At(d), a.At(e)))
  }

  lemma {:induction false} WriteAt(m: Store, a: Address, data: seq<byte>, d: nat)
    requires Writable(m, a, |data|) && d < |data|
    ensures Peek(Write(m, a, data), a.At(d)) == data[d]
    decreases |data|
  {
    var n := |data| - 1;
    var front := data[..n];
    var m1 := Write(m, a, front);
    WriteShape(m, a, front);
    assert Mapped(m, a.At(n)) && Mapped(m, a.At(d));
    PokePeek(m1, a.At(n), data[n], a.At(d));
    if d < n {
      WriteAt(m, a, front, d);
      assert !Alias(m, a.At(d), a.At(n));
    }
  }

  /** What was written is read back. */
  lemma WriteReadBack(m: Store, a: Address, data: seq<byte>)
    requires Writable(m, a, |data|)
    ensures Read(Write(m, a, data), a, |data|) == data
  {
    forall d | 0 <= d < |data|
      ensures Read(Write(m, a, data), a, |data|)[d] == data[d]
    {
      WriteAt(m, a, data, d);
    }
  }
}
