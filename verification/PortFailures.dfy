/** Inputs on which assertions of an input port fail, reached through the port's own
    operations from a new port. */
module PortFailures {
  import opened Results
  import opened Memory
  import opened Views
  import opened AuxPool
  import opened InputQueues

  /** A producer's buffer of n bytes in memory of its own, not stitchable to anything. */
  function Plain(k: nat, n: nat): View {
    View(k, Address(k, 0), 0, n, None)
  }

  lemma PlainPromised(m: Store, p: Pool, k: nat, n: nat, s: seq<byte>)
    requires k in m && m[k].Flat? && |m[k].cells| == n && n > 0 && k !in p.owned
    requires forall a :: a in p.free ==> a.buf in p.owned && a.base.mem == a.buf
    ensures Carries(m, Plain(k, n), s + Read(m, Plain(k, n).Get(0), n), |s|) && Honest(m, Plain(k, n))
    ensures Admits(m, p, Plain(k, n))
  {
    var v := Plain(k, n);
    var data := Read(m, v.Get(0), n);
    forall d {:trigger v.base.At(d)} | 0 <= d < n ensures Peek(m, v.base.At(d)) == (s + data)[|s| + d] {
      assert v.Get(0).At(d) == v.base.At(d);
      assert (s + data)[|s| + d] == data[d];
    }
  }

  /** Memory that nobody knows yet disturbs no queue. */
  lemma FreshUntouched(m: Store, k: nat, r: Region, q: seq<View>)
    requires k !in m && forall v :: v in q ==> v.base.mem in m
    ensures Untouched(m, m[k := r], q)
  {
  }

  lemma FeedReady(m: Store, q: seq<View>, s: seq<byte>, c: nat, p: Pool, k: nat, n: nat)
    requires Holds(m, q, s, c) && PoolOk(m, q, p) && k !in m && n > 0
    ensures var m', v := m[k := Flat(seq(n, _ => 0))], Plain(k, n);
      && Untouched(m, m', q) && Admits(m', p, v) && Honest(m', v)
      && Carries(m', v, s + Read(m', v.Get(0), v.length), |s|)
    ensures forall v :: v in q ==> v.base.mem != k
  {
    var r := Flat(seq(n, _ => 0));
    QueuedMapped(m, q, s, c);
    PoolMapped(m, q, p);
    FreshUntouched(m, k, r, q);
    PlainPromised(m[k := r], p, k, n, s);
    forall v | v in q ensures v.base.mem != k {
      assert v.base.mem in m;
    }
  }

  predicate WholeItems(n: nat, item: nat) {
    n > 0 && item > 0 && n % item == 0
  }

  /** A producer writes n bytes of its own. */
  method Write(port: InputPort, n: nat) returns (k: nat)
    requires port.Valid() && WholeItems(n, port.itemSize)
    modifies port`mem
    ensures port.Valid() && port.Promised(Plain(k, n))
    ensures forall v :: v in port.queue ==> v.base.mem != k
  {
    k := FreshId(port.mem);
    var m' := port.mem[k := Flat(seq(n, _ => 0))];
    FeedReady(port.mem, port.queue, port.stream, port.used, port.pool, k, n);
    hide Holds;
    hide Linked;
    hide PoolOk;
    hide Aligned;
    hide Total;
    hide Carries;
    hide Honest;
    hide Admits;
    hide Read;
    hide Untouched;
    hide Contents;
    port.Environment(m');
  }

  /** A producer writes n bytes of its own and posts them. */
  method Feed(port: InputPort, n: nat) returns (k: nat)
    requires port.Valid() && WholeItems(n, port.itemSize)
    modifies port
    ensures port.Valid() && port.itemSize == old(port.itemSize) && port.reserve == old(port.reserve)
    ensures port.maximum == old(port.maximum) && port.preload == old(port.preload)
    ensures port.queue == Pushed(old(port.queue), Plain(k, n)) && port.enqueued == old(port.enqueued) + n
    ensures forall v :: v in old(port.queue) ==> v.base.mem != k
  {
    hide WholeItems;
    hide Holds;
    hide Linked;
    hide PoolOk;
    hide Aligned;
    hide Total;
    hide Read;
    hide Pushed;
    hide InputPort.Promised;
    k := Write(port, n);
    port.Push(Plain(k, n));
  }

  lemma PoolMapped(m: Store, q: seq<View>, p: Pool)
    requires PoolOk(m, q, p)
    ensures p.owned <= m.Keys && forall a :: a in p.free ==> a.buf in p.owned && a.base.mem == a.buf
  {
  }

  lemma QueuedMapped(m: Store, q: seq<View>, s: seq<byte>, c: nat)
    requires Holds(m, q, s, c)
    ensures forall v :: v in q ==> v.base.mem in m
  {
    forall v | v in q ensures v.base.mem in m {
      var j :| 0 <= j < |q| && q[j] == v;
      assert Carries(m, q[j], s, Starts(q, c)[j]);
    }
  }

  method PartialPort() returns (port: InputPort)
    ensures fresh(port) && port.Valid() && port.itemSize == 4 && port.enqueued == 4 && port.reserve == 8
    ensures port.queue != [] && port.queue[0].length == 4
  {
    port := new InputPort();
    var configured := port.UpdateConfig(4, 0, 8, 0);
    var k := Feed(port, 4);
    assert port.queue == [Plain(k, 4)];
  }

  /** A message makes a port ready that has stream data, but less than its reserve: front
      fails. */
  method MessageWithPartialData() returns (port: InputPort, r: Outcome<View>)
    ensures port.Valid() && port.ready && 0 < port.enqueued < port.reserve && r == AssertFailed
  {
    port := PartialPort();
    hide Holds;
    hide Linked;
    hide PoolOk;
    hide Aligned;
    hide Total;
    hide AccumulateSucceeds;
    port.UpdateHasMsg(true);
    r := port.Front();
  }

  /** A preload of two items of four bytes is taken back: eight bytes are asked for as eight
      items, and consume fails. */
  method PreloadTakenBack() returns (item: nat, queued: nat, ok: bool)
    ensures item == 4 && queued == 8 && !ok
  {
    var port := new InputPort();
    var configured := port.UpdateConfig(4, 8, 4, 0);
    FrontIsAll(port.mem, port.queue, port.stream, port.used);
    item, queued := port.itemSize, port.enqueued;
    ok := port.UpdateConfig(4, 0, 4, 0);
  }

  lemma FrontIsAll(m: Store, q: seq<View>, s: seq<byte>, c: nat)
    requires Holds(m, q, s, c)
    ensures q != [] ==> q[0].length <= Total(q)
    ensures Total(q) == |s| - c
  {
    if q != [] {
      LengthInTotal(q, 0);
    }
  }

  /** Items of twelve bytes under the default maximum: 65532 bytes are the most whole items an
      auxiliary buffer holds, never the maximum, so that with more than that queued in a second
      buffer accumulate ends in a failed assertion. */
  method AccumulateTwelve() returns (port: InputPort, ok: bool)
    ensures !ok && port.itemSize == 12 && port.maximum == 65536
  {
    port := new InputPort();
    var configured := port.UpdateConfig(12, 0, 12, 0);
    var a := Feed(port, 12);
    var b := Feed(port, 65532);
    TwoPlain(a, b);
    ok := port.Accumulate();
  }

  lemma TwoPlain(a: nat, b: nat)
    requires a != b
    ensures var q := Pushed(Pushed([], Plain(a, 12)), Plain(b, 65532));
      q == [Plain(a, 12), Plain(b, 65532)] && !AccumulateSucceeds(q, 65536, 12)
  {
    var q := [Plain(a, 12), Plain(b, 65532)];
    assert [] + [Plain(a, 12)] == [Plain(a, 12)] && [Plain(a, 12)] + [Plain(b, 65532)] == q;
    assert q[1..] == [Plain(b, 65532)] && [Plain(b, 65532)][1..] == [];
    assert FreeBytes(65536, 12) == 65532;
    assert Total([Plain(b, 65532)]) == 65532 + Total([]);
    assert Total(q) == 65544;
    assert StitchPair(q, 1) == q;
    assert StitchDown(q, 0) == q;
  }
}
