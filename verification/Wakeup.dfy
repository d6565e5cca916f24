/** One block actor between messages: when it may work, and what makes it look again. */
module Wakeup {
  import opened BlockStates

  /** What decides about an input: queued buffers and bytes, messages, the reserve, the ready
      bit of the input queues. */
  datatype InPort = InPort(bufs: nat, enqueued: nat, reserve: nat, msgs: nat, ready: bool)

  /** What decides about an output: the room left in each queued buffer, the reserve, the
      ready bit. */
  datatype OutPort = OutPort(rooms: seq<nat>, reserve: nat, ready: bool)

  /** Everything is_work_allowed and the test for done look at, but for the priority token. */
  datatype Ports = Ports(
    state: BlockState, ins: seq<InPort>, available: seq<bool>, done: seq<bool>, outs: seq<OutPort>)

  /** Call, Stats, Active, Inert and Setup carry a copy of the priority token. Setup: the
      broadcasts of start() before the activation. Returned: mine tells the queue's own
      buffers. Check: whether the input's token is the owner's alone. */
  datatype Letter =
    | Kick
    | Call
    | Stats
    | Active
    | Inert
    | Setup
    | Buffer(i: nat, bytes: nat)
    | Message(i: nat)
    | Returned(o: nat, room: nat, mine: bool)
    | Check(i: nat, unique: bool)

  predicate Urgent(m: Letter) {
    m.Call? || m.Stats? || m.Active? || m.Inert? || m.Setup?
  }

  /** Urgent letters after which the block looks again, or never needs to. */
  predicate Rouses(m: Letter) {
    Urgent(m) && !m.Setup?
  }

  /** What a call of work does to each input: bytes and messages taken, buffers left queued,
      and whether it reports the input failed. To each output: the port it leaves. And whether
      it declares the block done. */
  datatype Use = Use(eaten: nat, read: nat, left: nat, failed: bool)
  datatype Work = Work(uses: seq<Use>, outs: seq<OutPort>, finish: bool)

  // ---------------------------------------------------------------- one port

  /** The ready bit recomputed. */
  function Updated(p: InPort): InPort {
    p.(ready := p.enqueued >= p.reserve)
  }

  /** A failed input is not to be ready until a buffer comes. */
  function Failed(p: InPort): InPort {
    p.(ready := false)
  }

  function Available(p: InPort): bool {
    (p.bufs > 0 && p.ready) || p.msgs > 0
  }

  /** The port after its availability is re-read. */
  function Refreshed(p: InPort): InPort {
    if p.msgs > 0 then p.(ready := true) else Updated(p)
  }

  /** One input after work: messages and bytes are trimmed. Buffers drained by stitching can
      stay queued behind, empty; bytes left need a buffer that holds them. */
  function Trimmed(p: InPort, u: Use): InPort {
    var q := (if u.failed then Failed(p) else p).(msgs := if u.read <= p.msgs then p.msgs - u.read else 0);
    if 0 < u.eaten <= p.enqueued then
      var bufs := if u.left > p.bufs then p.bufs else if u.left == 0 && u.eaten < p.enqueued then 1 else u.left;
      Updated(q.(enqueued := p.enqueued - u.eaten, bufs := bufs))
    else q
  }

  /** The fail does not last: re-reading the availability after work sets the ready bit as if
      the input had not failed. Only the availability of this one port is withheld. */
  lemma FailBitRestored(p: InPort)
    ensures Refreshed(Failed(p)).ready == Refreshed(p).ready == (p.msgs > 0 || p.enqueued >= p.reserve)
    ensures Available(Failed(p)) <==> p.msgs > 0
  {
  }

  predicate AllReady(ps: seq<InPort>) {
    forall j :: 0 <= j < |ps| ==> ps[j].ready
  }

  predicate AllOutsReady(ps: seq<OutPort>) {
    forall j :: 0 <= j < |ps| ==> ps[j].ready
  }

  // ---------------------------------------------------------------- the ports as a whole

  /** Sources have no inputs and one availability bit that is always set. */
  predicate Shaped(p: Ports) {
    |p.done| == |p.ins| && |p.available| == if p.ins == [] then 1 else |p.ins|
  }

  /** The block could work if nobody asked for priority. */
  predicate Able(p: Ports) {
    p.state == LIVE && true in p.available && AllReady(p.ins) && AllOutsReady(p.outs)
  }

  predicate Suits(p: Ports, w: Work) {
    |w.uses| == |p.ins| && |w.outs| == |p.outs|
  }

  /** Queues emptied, and the outputs' reserves back to their default. */
  function Ended(p: Ports): Ports {
    if p.state == DONE then p
    else p.(state := DONE,
            ins := seq(|p.ins|, k requires 0 <= k < |p.ins| => InPort(0, 0, p.ins[k].reserve, 0, 0 >= p.ins[k].reserve)),
            outs := seq(|p.outs|, k => OutPort([], 1, false)))
  }

  /** Input i is re-read. */
  function Reread(p: Ports, i: nat): Ports
    requires Shaped(p) && i < |p.ins|
  {
    p.(available := p.available[i := Available(p.ins[i])], ins := p.ins[i := Refreshed(p.ins[i])])
  }

  function TrimmedAt(p: Ports, w: Work, i: nat): Ports
    requires Shaped(p) && |w.uses| == |p.ins| && i < |p.ins|
  {
    Reread(if w.finish then p else p.(ins := p.ins[i := Trimmed(p.ins[i], w.uses[i])]), i)
  }

  /** After work and the trimming of the first n inputs. After mark_done nothing is trimmed. */
  function TrimmedTo(p: Ports, w: Work, n: nat): (r: Ports)
    requires Shaped(p) && |w.uses| == |p.ins| && n <= |p.ins|
    ensures Shaped(r) && |r.ins| == |p.ins| && r.outs == p.outs && r.state == p.state && r.done == p.done
    ensures forall k :: n <= k < |p.ins| ==> r.ins[k] == p.ins[k] && r.available[k] == p.available[k]
  {
    if n == 0 then p
    else
      TrimmedAt(TrimmedTo(p, w, n - 1), w, n - 1)
  }

  /** One task in which work is called. */
  function Worked(p: Ports, w: Work): (r: Ports)
    requires Shaped(p) && Suits(p, w)
    ensures Shaped(r) && |r.ins| == |p.ins| && |r.outs| == |p.outs|
  {
    var q := p.(outs := w.outs);
    var e := if w.finish then Ended(q) else q;
    TrimmedTo(e, w, |p.ins|)
  }

  /** What a task leaves alone: the done bits, the reserves, and unless work ends the block its
      state; the outputs are as work left them. */
  lemma WorkedKeeps(p: Ports, w: Work, k: nat)
    requires Shaped(p) && Suits(p, w) && k < |p.ins|
    ensures Worked(p, w).done == p.done && Worked(p, w).ins[k].reserve == p.ins[k].reserve
    ensures !w.finish ==> Worked(p, w).state == p.state && Worked(p, w).outs == w.outs
    ensures w.finish ==> Worked(p, w).state == DONE
  {
    var q := p.(outs := w.outs);
    TrimmedPorts(if w.finish then Ended(q) else q, w, |p.ins|, k);
  }

  /** What a task leaves of each input: what work left, with the bits re-read. */
  lemma {:induction false} TrimmedPorts(p: Ports, w: Work, n: nat, k: nat)
    requires Shaped(p) && |w.uses| == |p.ins| && n <= |p.ins| && k < n
    ensures var t := if w.finish then p.ins[k] else Trimmed(p.ins[k], w.uses[k]);
      TrimmedTo(p, w, n).ins[k] == Refreshed(t) && TrimmedTo(p, w, n).available[k] == Available(t)
  {
    if k < n - 1 {
      TrimmedPorts(p, w, n - 1, k);
    }
  }

  /** A block whose work does nothing but fail input i, which has no message, is called again
      at once with the same data if and only if another input is available. */
  lemma FailHolds(p: Ports, i: nat, w: Work)
    requires Shaped(p) && Suits(p, w) && Able(p) && i < |p.ins| && p.ins[i].msgs == 0
    requires !w.finish && w.outs == p.outs && forall k :: 0 <= k < |p.ins| ==> w.uses[k] == Use(0, 0, 0, k == i)
    requires forall k :: 0 <= k < |p.ins| ==> p.ins[k].msgs > 0 || p.ins[k].enqueued >= p.ins[k].reserve
    ensures Able(Worked(p, w)) <==> exists k :: 0 <= k < |p.ins| && k != i && Available(p.ins[k])
  {
    var r := Worked(p, w);
    forall k | 0 <= k < |p.ins|
      ensures r.ins[k].ready && r.available[k] == (k != i && Available(p.ins[k]))
    {
      TrimmedPorts(p.(outs := w.outs), w, |p.ins|, k);
    }
    hide Worked;
    if exists k :: 0 <= k < |p.ins| && k != i && Available(p.ins[k]) {
      var k :| 0 <= k < |p.ins| && k != i && Available(p.ins[k]);
      assert r.available[k];
    }
  }

  /** Input i will never bring anything again: a reserved one when it is done and has nothing,
      one without reserve when all inputs are done and have nothing. */
  predicate MustEnd(p: Ports, i: nat)
    requires Shaped(p) && i < |p.ins|
  {
    || (p.ins[i].reserve != 0 && p.done[i] && !p.available[i])
    || (p.ins[i].reserve == 0 && false !in p.done && true !in p.available)
  }

  /** A port after a buffer, a message, a returned buffer came in. */
  function Fed(p: InPort, bytes: nat): InPort {
    if bytes == 0 then p else Updated(p.(bufs := p.bufs + 1, enqueued := p.enqueued + bytes))
  }

  function Told(p: InPort): InPort {
    p.(msgs := p.msgs + 1)
  }

  function Refilled(p: OutPort, room: nat, mine: bool): OutPort {
    var rooms := if mine then p.rooms + [room] else p.rooms;
    OutPort(rooms, p.reserve, rooms != [] && rooms[0] >= p.reserve)
  }

  // ---------------------------------------------------------------- what is there

  /** The front buffer has room for the reserve. */
  predicate HasRoom(o: OutPort) {
    o.rooms != [] && o.rooms[0] >= o.reserve
  }

  /** There is something for work to do: data or a message somewhere, and at every port what work
      asked for. Of what lies in the queues only, not of bits. */
  ghost predicate Workable(p: Ports) {
    && p.state == LIVE
    && (p.ins == [] || exists k :: 0 <= k < |p.ins| && (p.ins[k].bufs > 0 || p.ins[k].msgs > 0))
    && (forall k :: 0 <= k < |p.ins| ==> p.ins[k].enqueued >= p.ins[k].reserve || p.ins[k].msgs > 0)
    && forall o :: 0 <= o < |p.outs| ==> p.outs[o].rooms != [] && p.outs[o].rooms[0] >= p.outs[o].reserve
  }

  /** An input has a message, or as much data as work asked for. */
  predicate Offers(x: InPort) {
    x.msgs > 0 || (x.bufs > 0 && x.enqueued >= x.reserve)
  }

  predicate Nothing(x: InPort) {
    x.bufs == 0 && x.msgs == 0
  }

  /** The bits of an input agree with what is queued; those of an input that work failed may be
      down although there is something. Nobody looks at a done block's. */
  ghost predicate InBits(x: InPort, avail: bool, spoilt: bool, done: bool) {
    && (x.ready <==> x.msgs > 0 || x.enqueued >= x.reserve)
    && (x.enqueued > 0 ==> x.bufs > 0)
    && (done || (avail ==> x.bufs > 0 || x.msgs > 0))
    && (done || spoilt || (Offers(x) ==> avail))
  }

  ghost predicate OutBits(o: OutPort, held: bool) {
    (o.ready ==> HasRoom(o)) && (held || (HasRoom(o) ==> o.ready))
  }

  /** spoilt: inputs failed by the last call of work. held: outputs that it left with their bit
      down in spite of room. */
  ghost predicate Agrees(p: Ports, spoilt: set<nat>, held: set<nat>)
    requires Shaped(p)
  {
    && (forall k: nat :: k < |p.ins| ==> InBits(p.ins[k], p.available[k], k in spoilt, p.state == DONE))
    && (forall o: nat :: o < |p.outs| ==> OutBits(p.outs[o], o in held))
    && (p.ins == [] ==> p.available == [true])
  }

  /** The bits of a block's ports before start(). */
  ghost predicate InsAgree(ins: seq<InPort>) {
    forall k :: 0 <= k < |ins| ==> InBits(ins[k], Available(ins[k]), false, false)
  }

  ghost predicate OutsAgree(outs: seq<OutPort>) {
    forall o :: 0 <= o < |outs| ==> OutBits(outs[o], false)
  }

  /** Work sets no output's bit without room. */
  predicate Honest(w: Work) {
    forall o :: 0 <= o < |w.outs| ==> (w.outs[o].ready ==> HasRoom(w.outs[o]))
  }

  ghost function Failures(w: Work): set<nat> {
    set k: nat | k < |w.uses| && w.uses[k].failed
  }

  ghost function Downs(w: Work): set<nat> {
    set o: nat | o < |w.outs| && HasRoom(w.outs[o]) && !w.outs[o].ready
  }

  /** Bits that agree allow work only when there is something to do, and unless work failed a port,
      always then. */
  lemma AbleMeans(p: Ports, spoilt: set<nat>, held: set<nat>)
    requires Shaped(p) && Agrees(p, spoilt, held)
    ensures Able(p) ==> Workable(p)
    ensures Workable(p) && spoilt == {} && held == {} ==> Able(p)
  {
    if Able(p) {
      var k :| 0 <= k < |p.available| && p.available[k];
      assert p.ins != [] ==> InBits(p.ins[k], p.available[k], k in spoilt, p.state == DONE);
      forall j | 0 <= j < |p.ins| ensures p.ins[j].enqueued >= p.ins[j].reserve || p.ins[j].msgs > 0 {
        assert p.ins[j].ready && InBits(p.ins[j], p.available[j], j in spoilt, p.state == DONE);
      }
      forall o | 0 <= o < |p.outs| ensures HasRoom(p.outs[o]) {
        assert p.outs[o].ready && OutBits(p.outs[o], o in held);
      }
    }
    if Workable(p) && spoilt == {} && held == {} {
      forall j | 0 <= j < |p.ins| ensures p.ins[j].ready {
        assert InBits(p.ins[j], p.available[j], j in spoilt, p.state == DONE);
      }
      forall o | 0 <= o < |p.outs| ensures p.outs[o].ready {
        assert OutBits(p.outs[o], o in held);
      }
      if p.ins == [] {
        assert p.available[0];
      } else {
        var k :| 0 <= k < |p.ins| && (p.ins[k].bufs > 0 || p.ins[k].msgs > 0);
        assert InBits(p.ins[k], p.available[k], k in spoilt, p.state == DONE) && p.available[k];
      }
    }
  }

  /** The test for done, on what is queued. It fails at a reserved input that is not done, and
      succeeds at one that is done and empty; at one without reserve it succeeds when every input
      is done and empty. If it succeeds, then the input, or with no reserve every input, is done
      and offers nothing, or was failed by work just now. */
  lemma MustEndMeans(p: Ports, i: nat, spoilt: set<nat>, held: set<nat>)
    requires Shaped(p) && Agrees(p, spoilt, held) && i < |p.ins| && p.state != DONE
    ensures p.ins[i].reserve != 0 && !p.done[i] ==> !MustEnd(p, i)
    ensures p.ins[i].reserve != 0 && p.done[i] && Nothing(p.ins[i]) ==> MustEnd(p, i)
    ensures p.ins[i].reserve == 0 && (forall k :: 0 <= k < |p.ins| ==> p.done[k] && Nothing(p.ins[k])) ==> MustEnd(p, i)
    ensures MustEnd(p, i) && p.ins[i].reserve != 0 ==> p.done[i] && (i in spoilt || !Offers(p.ins[i]))
    ensures MustEnd(p, i) && p.ins[i].reserve == 0 ==>
      forall k: nat :: k < |p.ins| ==> p.done[k] && (k in spoilt || !Offers(p.ins[k]))
  {
    assert InBits(p.ins[i], p.available[i], i in spoilt, p.state == DONE);
    if MustEnd(p, i) && p.ins[i].reserve == 0 {
      forall k: nat | k < |p.ins| ensures p.done[k] && (k in spoilt || !Offers(p.ins[k])) {
        assert InBits(p.ins[k], p.available[k], k in spoilt, p.state == DONE);
        assert p.done[k] != false && p.available[k] != true;
      }
    }
    if p.ins[i].reserve == 0 && forall k :: 0 <= k < |p.ins| ==> p.done[k] && Nothing(p.ins[k]) {
      forall k: nat | k < |p.ins| ensures !p.available[k] {
        assert InBits(p.ins[k], p.available[k], k in spoilt, p.state == DONE);
      }
    }
  }

  /** How a check ends or does not end a block whose ports, after the look it gives, are r. */
  ghost predicate Checked(r: Ports, i: nat, spoilt: set<nat>, ended: bool)
    requires Shaped(r) && i < |r.ins|
  {
    if r.ins[i].reserve != 0 then
      && (ended ==> r.done[i] && (i in spoilt || !Offers(r.ins[i])))
      && (r.done[i] && Nothing(r.ins[i]) ==> ended)
    else
      && (ended ==> forall k: nat :: k < |r.ins| ==> r.done[k] && (k in spoilt || !Offers(r.ins[k])))
      && ((forall k :: 0 <= k < |r.ins| ==> r.done[k] && Nothing(r.ins[k])) ==> ended)
  }

  lemma RecordChecked(p: Ports, i: nat, spoilt: set<nat>, held: set<nat>, calls: seq<Called>)
    requires Record(p, spoilt, held, calls) && i < |p.ins| && p.state != DONE
    ensures Shaped(p) && Checked(p, i, spoilt, MustEnd(p, i))
  {
    hide Agrees;
    hide MustEnd;
    hide Workable;
    MustEndMeans(p, i, spoilt, held);
  }

  /** What work took is gone, and nothing else. */
  lemma TrimmedExactly(p: InPort, u: Use)
    requires u.eaten <= p.enqueued && u.read <= p.msgs && (p.enqueued > 0 ==> p.bufs > 0)
    ensures var t := Trimmed(p, u); t.enqueued + u.eaten == p.enqueued && t.msgs + u.read == p.msgs && t.reserve == p.reserve
    ensures Trimmed(p, u).bufs <= p.bufs && (u.eaten == 0 ==> Trimmed(p, u).bufs == p.bufs)
  {
  }

  lemma TrimmedBits(p: InPort, avail: bool, was: bool, u: Use)
    requires InBits(p, avail, was, false)
    ensures InBits(Refreshed(Trimmed(p, u)), Available(Trimmed(p, u)), u.failed, false)
  {
  }

  lemma WorkedBits(p: Ports, w: Work, spoilt: set<nat>, held: set<nat>)
    requires Shaped(p) && Suits(p, w) && Agrees(p, spoilt, held) && p.state != DONE && Honest(w)
    ensures Agrees(Worked(p, w), Failures(w), Downs(w))
    ensures Worked(p, w).state == if w.finish then DONE else p.state
  {
    var q := p.(outs := w.outs);
    var e := if w.finish then Ended(q) else q;
    var r := TrimmedTo(e, w, |p.ins|);
    forall k: nat | k < |p.ins| ensures InBits(r.ins[k], r.available[k], k in Failures(w), r.state == DONE) {
      TrimmedPorts(e, w, |p.ins|, k);
      assert InBits(p.ins[k], p.available[k], k in spoilt, p.state == DONE);
      if !w.finish {
        TrimmedBits(p.ins[k], p.available[k], k in spoilt, w.uses[k]);
      }
    }
  }

  lemma EndedBits(p: Ports, spoilt: set<nat>, held: set<nat>)
    requires Shaped(p) && Agrees(p, spoilt, held)
    ensures Shaped(Ended(p)) && Agrees(Ended(p), spoilt, held)
  {
  }

  /** A buffer is queued: it counts, and once the reserve is there the port is ready and
      available. */
  lemma FedBits(p: Ports, i: nat, bytes: nat, spoilt: set<nat>, held: set<nat>)
    requires Shaped(p) && i < |p.ins| && Agrees(p, spoilt, held)
    ensures var q := Reread(p.(ins := p.ins[i := Fed(p.ins[i], bytes)]), i);
      Shaped(q) && Agrees(q, if bytes > 0 then spoilt - {i} else spoilt, held)
  {
    var q := Reread(p.(ins := p.ins[i := Fed(p.ins[i], bytes)]), i);
    assert InBits(p.ins[i], p.available[i], i in spoilt, p.state == DONE);
  }

  lemma ToldBits(p: Ports, i: nat, spoilt: set<nat>, held: set<nat>)
    requires Shaped(p) && i < |p.ins| && Agrees(p, spoilt, held)
    ensures var q := Reread(p.(ins := p.ins[i := Told(p.ins[i])]), i);
      Shaped(q) && Agrees(q, spoilt - {i}, held)
  {
    assert InBits(p.ins[i], p.available[i], i in spoilt, p.state == DONE);
  }

  lemma RefilledBits(p: Ports, o: nat, room: nat, mine: bool, spoilt: set<nat>, held: set<nat>)
    requires Shaped(p) && o < |p.outs| && Agrees(p, spoilt, held)
    ensures var q := p.(outs := p.outs[o := Refilled(p.outs[o], room, mine)]);
      Shaped(q) && Agrees(q, spoilt, held - {o})
  {
  }

  predicate AddressedTo(ms: seq<Letter>, inputs: nat, outputs: nat) {
    forall m :: m in ms ==> (m.Buffer? || m.Message? || m.Check? ==> m.i < inputs) && (m.Returned? ==> m.o < outputs)
  }

  // ---------------------------------------------------------------- the actor

  /** A letter comes in, or the first one is handled. */
  datatype Event = Comes(m: Letter) | Turns(w: Work, arrived: seq<Letter>) | Keeps | Drops

  /** What a call of work found: the ports, the copies of the token outside, the mailbox. */
  datatype Called = Called(ports: Ports, kept: nat, mail: seq<Letter>)

  ghost predicate Record(p: Ports, spoilt: set<nat>, held: set<nat>, calls: seq<Called>) {
    && Shaped(p) && Agrees(p, spoilt, held)
    && forall c :: c in calls ==> Proper(c)
  }

  /** Work was called with something to do and nobody asking for priority. */
  ghost predicate Proper(c: Called) {
    && Workable(c.ports) && c.kept == 0
    && Call !in c.mail && Stats !in c.mail && Active !in c.mail && Inert !in c.mail && Setup !in c.mail
  }

  lemma RecordWorked(p: Ports, spoilt: set<nat>, held: set<nat>, calls: seq<Called>, w: Work, kept: nat, mail: seq<Letter>)
    requires Record(p, spoilt, held, calls) && Suits(p, w) && Able(p) && kept == 0 && (forall m :: m in mail ==> !Urgent(m))
    requires Honest(w)
    ensures Record(Worked(p, w), Failures(w), Downs(w), calls + [Called(p, kept, mail)])
  {
    AbleMeans(p, spoilt, held);
    WorkedBits(p, w, spoilt, held);
    hide Agrees;
    hide Worked;
    hide Workable;
  }

  lemma RecordEnded(p: Ports, spoilt: set<nat>, held: set<nat>, calls: seq<Called>)
    requires Record(p, spoilt, held, calls)
    ensures Record(Ended(p), spoilt, held, calls)
  {
    EndedBits(p, spoilt, held);
    hide Agrees;
    hide Ended;
    hide Workable;
  }

  lemma RecordFed(p: Ports, i: nat, bytes: nat, spoilt: set<nat>, held: set<nat>, calls: seq<Called>)
    requires Record(p, spoilt, held, calls) && i < |p.ins|
    ensures Record(Reread(p.(ins := p.ins[i := Fed(p.ins[i], bytes)]), i), if bytes > 0 then spoilt - {i} else spoilt, held, calls)
  {
    FedBits(p, i, bytes, spoilt, held);
    hide Agrees;
    hide Fed;
    hide Workable;
  }

  lemma RecordTold(p: Ports, i: nat, spoilt: set<nat>, held: set<nat>, calls: seq<Called>)
    requires Record(p, spoilt, held, calls) && i < |p.ins|
    ensures Record(Reread(p.(ins := p.ins[i := Told(p.ins[i])]), i), spoilt - {i}, held, calls)
  {
    ToldBits(p, i, spoilt, held);
    hide Agrees;
    hide Told;
    hide Workable;
  }

  lemma RecordRefilled(p: Ports, o: nat, room: nat, mine: bool, spoilt: set<nat>, held: set<nat>, calls: seq<Called>)
    requires Record(p, spoilt, held, calls) && o < |p.outs|
    ensures Record(p.(outs := p.outs[o := Refilled(p.outs[o], room, mine)]), spoilt, held - {o}, calls)
  {
    RefilledBits(p, o, room, mine, spoilt, held);
    hide Agrees;
    hide Refilled;
    hide Workable;
  }

  lemma RecordDone(p: Ports, i: nat, d: bool, spoilt: set<nat>, held: set<nat>, calls: seq<Called>)
    requires Record(p, spoilt, held, calls) && i < |p.done|
    ensures Record(p.(done := p.done[i := d]), spoilt, held, calls)
  {
    hide InBits;
    hide OutBits;
    hide Workable;
  }

  class BlockActor {
    var state: BlockState
    var ins: seq<InPort>
    var available: seq<bool>
    var done: seq<bool>
    var outs: seq<OutPort>
    var mail: seq<Letter>

    /** Copies of the priority token kept by their senders. */
    var kept: nat

    /** The last look came to nothing only because of a kept copy. */
    ghost var missed: bool

    /** Inputs failed by the last call of work and not fed since; outputs it left with their bit
        down in spite of room, and not refilled since. */
    ghost var spoilt: set<nat>
    ghost var held: set<nat>

    /** Every call of work so far. */
    ghost var calls: seq<Called>

    function Now(): Ports
      reads this
    {
      Ports(state, ins, available, done, outs)
    }

    predicate Unhindered()
      reads this
    {
      kept == 0 && forall m :: m in mail ==> !Urgent(m)
    }

    predicate IsWorkAllowed()
      reads this
    {
      Unhindered() && Able(Now())
    }

    /** No start() in progress: the set-up broadcasts come before the activation. */
    ghost predicate SetUp()
      reads this
    {
      state == LIVE || Active in mail ==> Setup !in mail
    }

    /** Whenever the block could work, something will make it look again, or its last look was
        spoilt by a kept copy. */
    ghost predicate Awake()
      reads this
    {
      && (Able(Now()) ==> Kick in mail || (exists m :: m in mail && Rouses(m)) || missed)
      && (missed ==> Able(Now()))
    }

    ghost predicate Valid()
      reads this
    {
      Shaped(Now()) && SetUp() && Awake()
    }

    /** The bits agree with what is queued, and work was called only with something to do and
        nobody asking for priority. */
    ghost predicate Faithful()
      reads this
    {
      Record(Now(), spoilt, held, calls)
    }

    constructor (inputs: seq<InPort>, outputs: seq<OutPort>)
      ensures Valid() && mail == [] && kept == 0 && !missed && calls == [] && spoilt == {} && held == {}
      ensures InsAgree(inputs) && OutsAgree(outputs) ==> Faithful()
      ensures state == INIT && ins == inputs && outs == outputs
      ensures forall k :: 0 <= k < |inputs| ==> available[k] == Available(inputs[k]) && !done[k]
      ensures inputs == [] ==> available == [true]
    {
      state := INIT;
      ins := inputs;
      outs := outputs;
      done := seq(|inputs|, k => false);
      available := if inputs == [] then [true] else seq(|inputs|, k requires 0 <= k < |inputs| => Available(inputs[k]));
      mail := [];
      kept := 0;
      missed := false;
      spoilt, held, calls := {}, {}, [];
    }

    method UpdateInputAvail(i: nat)
      requires Shaped(Now()) && i < |ins|
      modifies this`ins, this`available
      ensures Now() == Reread(old(Now()), i)
    {
      available := available[i := Available(ins[i])];
      ins := ins[i := Refreshed(ins[i])];
    }

    /** Notes whether this look fails for a kept copy alone. */
    ghost method Note()
      modifies this`missed
      ensures missed <==> Able(Now()) && kept > 0 && forall m :: m in mail ==> !Urgent(m)
      ensures Shaped(Now()) && SetUp() && !IsWorkAllowed() ==> Valid()
    {
      missed := Able(Now()) && kept > 0 && forall m :: m in mail ==> !Urgent(m);
    }

    /** A done block need not wake up. */
    lemma DoneSleeps()
      requires Shaped(Now()) && SetUp() && state == DONE && (missed ==> Able(Now()))
      ensures Valid() && !missed
    {
    }

    lemma MissedAble()
      requires Valid()
      ensures missed ==> Able(Now())
    {
      hide Able;
    }

    method TaskKicker()
      requires Shaped(Now()) && SetUp()
      modifies this`mail, this`missed
      ensures mail == if old(IsWorkAllowed()) then old(mail) + [Kick] else old(mail)
      ensures Valid() && (missed ==> kept > 0)
    {
      Note();
      if IsWorkAllowed() {
        mail := mail + [Kick];
        assert Kick in mail;
      }
    }

    method MarkDone()
      requires Shaped(Now()) && SetUp() && (missed ==> Able(Now()))
      modifies this`state, this`ins, this`outs, this`missed
      ensures Now() == Ended(old(Now())) && Valid() && !missed
      ensures state == DONE && available == old(available) && done == old(done)
      ensures old(state) != DONE ==>
        && (forall k :: 0 <= k < |ins| ==> ins[k].bufs == 0 && ins[k].enqueued == 0 && ins[k].msgs == 0)
        && (forall o :: 0 <= o < |outs| ==> outs[o].rooms == [] && !outs[o].ready)
      ensures old(Faithful()) ==> Faithful()
    {
      hide Record;
      if Faithful() {
        RecordEnded(Now(), spoilt, held, calls);
      }
      if state == DONE { return; }
      var was := ins;
      ins := seq(|was|, k requires 0 <= k < |was| => InPort(0, 0, was[k].reserve, 0, 0 >= was[k].reserve));
      outs := seq(|outs|, k => OutPort([], 1, false));
      state := DONE;
      missed := false;
    }

    /** The inputs after work, one after the other. */
    method TrimInputs(w: Work)
      requires Shaped(Now()) && |w.uses| == |ins|
      modifies this`ins, this`available
      ensures Now() == TrimmedTo(old(Now()), w, |old(ins)|)
    {
      ghost var p := Now();
      var i := 0;
      while i < |ins|
        invariant 0 <= i <= |ins| == |p.ins|
        invariant Shaped(Now()) && Now() == TrimmedTo(p, w, i)
      {
        hide TrimmedAt;
        TrimInput(w, i);
        i := i + 1;
      }
    }

    method TrimInput(w: Work, i: nat)
      requires Shaped(Now()) && |w.uses| == |ins| && i < |ins|
      modifies this`ins, this`available
      ensures Now() == TrimmedAt(old(Now()), w, i)
    {
      hide Trimmed;
      hide Reread;
      if !w.finish {
        ins := ins[i := Trimmed(ins[i], w.uses[i])];
      }
      UpdateInputAvail(i);
    }

    /** The main task: nothing if work is not allowed; otherwise one call of work, the inputs
        trimmed and re-read, and another look. Letters may arrive meanwhile. */
    method TaskMain(w: Work, arrived: seq<Letter>)
      requires Shaped(Now()) && SetUp() && Suits(Now(), w) && Setup !in arrived
      modifies this
      ensures Valid() && kept == old(kept) && (missed ==> kept > 0)
      ensures old(Faithful()) && Honest(w) ==> Faithful()
      ensures calls == old(calls) + if old(IsWorkAllowed()) then [Called(old(Now()), old(kept), old(mail))] else []
      ensures old(IsWorkAllowed()) ==> spoilt == Failures(w) && held == Downs(w)
      ensures !old(IsWorkAllowed()) ==> spoilt == old(spoilt) && held == old(held)
      ensures !old(IsWorkAllowed()) ==> Now() == old(Now()) && mail == old(mail)
      ensures old(IsWorkAllowed()) ==>
        && Now() == Worked(old(Now()), w)
        && mail == old(mail) + arrived
             + if Able(Worked(old(Now()), w)) && forall m :: m in arrived ==> !Urgent(m) then [Kick] else []
    {
      assert IsWorkAllowed() ==> Setup !in mail;
      hide Able;
      hide Worked;
      hide Urgent;
      hide Failures;
      hide Downs;
      hide Awake;
      hide Record;
      hide Honest;
      Note();
      if !IsWorkAllowed() { return; }
      CallWork(w);
      mail := mail + arrived;
      TaskKicker();
    }

    /** One call of work, put on record. */
    method CallWork(w: Work)
      requires Shaped(Now()) && SetUp() && Suits(Now(), w) && !missed && IsWorkAllowed()
      modifies this`state, this`ins, this`available, this`outs, this`missed, this`spoilt, this`held, this`calls
      ensures Now() == Worked(old(Now()), w)
      ensures calls == old(calls) + [Called(old(Now()), kept, mail)]
      ensures spoilt == Failures(w) && held == Downs(w)
      ensures old(Faithful()) && Honest(w) ==> Faithful()
    {
      hide Able;
      hide Worked;
      hide Urgent;
      hide Failures;
      hide Downs;
      hide Record;
      hide Honest;
      if Faithful() && Honest(w) {
        RecordWorked(Now(), spoilt, held, calls, w, kept, mail);
      }
      calls := calls + [Called(Now(), kept, mail)];
      spoilt, held := Failures(w), Downs(w);
      DoWork(w);
    }

    /** Work itself, and the inputs trimmed after it. */
    method DoWork(w: Work)
      requires Shaped(Now()) && SetUp() && Suits(Now(), w) && !missed
      modifies this`state, this`ins, this`available, this`outs, this`missed
      ensures Now() == Worked(old(Now()), w) && (state == LIVE ==> old(state) == LIVE)
    {
      outs := w.outs;
      if w.finish {
        MarkDone();
      }
      hide TrimmedTo;
      TrimInputs(w);
    }

    /** What work's complaint about an input does. Not accumulated: accumulate into merged
        buffers and look again; done: mark done; otherwise the bit is reset, unless the front is
        as large as it gets, which is an error. */
    method InputFail(i: nat, maximal: bool, merged: nat) returns (ok: bool)
      requires Shaped(Now()) && SetUp() && i < |ins| && (missed ==> Able(Now())) && 0 < merged
      modifies this
      ensures kept == old(kept) && Shaped(Now()) && SetUp()
      ensures ok <==> !(old(ins)[i].bufs > 0 && maximal && !old(done)[i])
      ensures old(ins)[i].bufs > 1 && !maximal ==>
        && Now() == old(Now()).(ins := old(ins)[i := old(ins)[i].(bufs := merged)])
        && mail == if old(Unhindered()) && Able(old(Now())) then old(mail) + [Kick] else old(mail)
      ensures (old(ins)[i].bufs <= 1 || maximal) && old(done)[i] ==> Now() == Ended(old(Now())) && mail == old(mail)
      ensures (old(ins)[i].bufs <= 1 || maximal) && !old(done)[i] ==>
        Now() == (if ok then old(Now()).(ins := old(ins)[i := Failed(old(ins)[i])]) else old(Now())) && mail == old(mail)
    {
      ok := true;
      if ins[i].bufs > 1 && !maximal {
        ins := ins[i := ins[i].(bufs := merged)];
        assert forall j :: 0 <= j < |ins| ==> ins[j].ready == old(ins)[j].ready;
        assert Able(Now()) == old(Able(Now())) by {
          if Able(Now()) {
            assert forall j :: 0 <= j < |old(ins)| ==> old(ins)[j].ready == ins[j].ready;
          }
        }
        TaskKicker();
        return;
      }
      if done[i] {
        MarkDone();
        return;
      }
      if ins[i].bufs > 0 && maximal { return false; }
      ins := ins[i := Failed(ins[i])];
    }

    // ---------------------------------------------------------------- what letters bring

    /** A buffer is queued at an input. With the reserve there, the port is ready and available. */
    method TakeBuffer(i: nat, bytes: nat)
      requires Shaped(Now()) && i < |ins|
      modifies this`ins, this`available, this`spoilt
      ensures Now() == Reread(old(Now()).(ins := old(ins)[i := Fed(old(ins)[i], bytes)]), i)
      ensures bytes > 0 ==> ins[i].bufs == old(ins)[i].bufs + 1
      ensures ins[i].enqueued == old(ins)[i].enqueued + bytes && ins[i].msgs == old(ins)[i].msgs
      ensures bytes > 0 && ins[i].enqueued >= ins[i].reserve ==> ins[i].ready && available[i]
      ensures spoilt == if bytes > 0 then old(spoilt) - {i} else old(spoilt)
      ensures old(Faithful()) ==> Faithful()
    {
      hide Record;
      if Faithful() {
        RecordFed(Now(), i, bytes, spoilt, held, calls);
      }
      spoilt := if bytes > 0 then spoilt - {i} else spoilt;
      ins := ins[i := Fed(ins[i], bytes)];
      UpdateInputAvail(i);
    }

    /** A message waits at an input: the port is ready and available whatever is queued. */
    method TakeMessage(i: nat)
      requires Shaped(Now()) && i < |ins|
      modifies this`ins, this`available, this`spoilt
      ensures Now() == Reread(old(Now()).(ins := old(ins)[i := Told(old(ins)[i])]), i)
      ensures ins[i].msgs == old(ins)[i].msgs + 1 && ins[i].enqueued == old(ins)[i].enqueued && ins[i].bufs == old(ins)[i].bufs
      ensures ins[i].ready && available[i] && spoilt == old(spoilt) - {i}
      ensures old(Faithful()) ==> Faithful()
    {
      hide Record;
      if Faithful() {
        RecordTold(Now(), i, spoilt, held, calls);
      }
      spoilt := spoilt - {i};
      ins := ins[i := Told(ins[i])];
      UpdateInputAvail(i);
    }

    /** A buffer comes back to an output: its own go behind the others, and the bit agrees with the
        front. */
    method TakeReturned(o: nat, room: nat, mine: bool)
      requires Shaped(Now()) && o < |outs|
      modifies this`outs, this`held
      ensures Now() == old(Now()).(outs := old(outs)[o := Refilled(old(outs)[o], room, mine)])
      ensures outs[o].rooms == old(outs)[o].rooms + (if mine then [room] else []) && outs[o].reserve == old(outs)[o].reserve
      ensures outs[o].ready <==> outs[o].rooms != [] && outs[o].rooms[0] >= outs[o].reserve
      ensures held == old(held) - {o}
      ensures old(Faithful()) ==> Faithful()
    {
      hide Record;
      if Faithful() {
        RecordRefilled(Now(), o, room, mine, spoilt, held, calls);
      }
      held := held - {o};
      outs := outs[o := Refilled(outs[o], room, mine)];
    }

    method CheckToken(i: nat, unique: bool)
      requires Shaped(Now()) && i < |ins|
      modifies this`done
      ensures Now() == old(Now()).(done := old(done)[i := unique])
      ensures old(Faithful()) ==> Faithful()
    {
      hide Record;
      if Faithful() {
        RecordDone(Now(), i, unique, spoilt, held, calls);
      }
      done := done[i := unique];
    }

    // ---------------------------------------------------------------- handlers

    /** The ports after a look with ports p and letters rest, the first letter gone, and the record
        of calls of work, which was was. */
    ghost predicate Looked(p: Ports, rest: seq<Letter>, w: Work, arrived: seq<Letter>, was: seq<Called>)
      requires Shaped(p) && Suits(p, w)
      reads this
    {
      if kept == 0 && Able(p) && forall m :: m in rest ==> !Urgent(m) then
        && Now() == Worked(p, w)
        && mail == rest + arrived + (if Able(Worked(p, w)) && forall m :: m in arrived ==> !Urgent(m) then [Kick] else [])
        && calls == was + [Called(p, kept, rest)]
      else Now() == p && mail == rest && calls == was
    }

    /** A handler adds no ports, and the mailbox holds only what it held, what arrived meanwhile,
        and the block's own kicks. */
    ghost predicate Since(was: seq<Letter>, arrived: seq<Letter>, inputs: nat, outputs: nat)
      reads this
    {
      |ins| == inputs && |outs| == outputs && forall m :: m in mail ==> m in was || m in arrived || m == Kick
    }

    /** Another look. */
    method HandleSelfKick(w: Work, arrived: seq<Letter>)
      requires Valid() && mail != [] && mail[0] == Kick && Suits(Now(), w) && Setup !in arrived
      modifies this
      ensures Valid() && kept == old(kept) && (missed ==> kept > 0)
      ensures old(Faithful()) && Honest(w) ==> Faithful()
      ensures Since(old(mail), arrived, |old(ins)|, |old(outs)|)
      ensures Looked(old(Now()), old(mail)[1..], w, arrived, old(calls))
    {
      mail := mail[1..];
      assert forall m :: m in mail ==> m in old(mail);
      TaskMain(w, arrived);
    }

    /** A call into the block, or a request for its statistics, ends in a kick. */
    method HandleCallable()
      requires Valid() && mail != [] && mail[0] in {Call, Stats}
      modifies this`mail
      ensures Valid() && mail == old(mail)[1..] + [Kick]
    {
      mail := mail[1..] + [Kick];
      assert Kick in mail;
    }

    /** The activation, too. */
    method HandleTopActive()
      requires Valid() && mail != [] && mail[0] == Active
      modifies this`mail, this`state
      ensures Valid() && Now() == old(Now()).(state := LIVE) && mail == old(mail)[1..] + [Kick]
      ensures old(Faithful()) && old(state) != DONE ==> Faithful()
    {
      state := LIVE;
      assert Active in mail;
      mail := mail[1..] + [Kick];
      assert Kick in mail;
    }

    /** The broadcasts before it do not. */
    method HandleSetup()
      requires Valid() && mail != [] && mail[0] == Setup
      modifies this`mail
      ensures Valid() && mail == old(mail)[1..]
    {
      assert Setup in mail;
      mail := mail[1..];
    }

    /** Told to stop. */
    method HandleTopInert()
      requires Valid() && mail != [] && mail[0] == Inert
      modifies this
      ensures Valid() && kept == old(kept) && !missed
      ensures Now() == Ended(old(Now())) && mail == old(mail)[1..]
      ensures old(Faithful()) ==> Faithful()
    {
      mail := mail[1..];
      assert forall m :: m in mail ==> m in old(mail);
      MarkDone();
    }

    /** A buffer for an input: dropped by a done block, otherwise queued and looked at. */
    method HandleInputBuffer(w: Work, arrived: seq<Letter>)
      requires Valid() && mail != [] && mail[0].Buffer? && mail[0].i < |ins| && Suits(Now(), w) && Setup !in arrived
      modifies this
      ensures Valid() && kept == old(kept) && (missed ==> kept > 0)
      ensures old(Faithful()) && Honest(w) ==> Faithful()
      ensures Since(old(mail), arrived, |old(ins)|, |old(outs)|)
      ensures old(state) == DONE ==> Now() == old(Now()) && mail == old(mail)[1..]
      ensures old(state) != DONE ==>
        var m, p := old(mail)[0], old(Now());
        var q := Reread(p.(ins := p.ins[m.i := Fed(p.ins[m.i], m.bytes)]), m.i);
        && q.ins[m.i].enqueued == p.ins[m.i].enqueued + m.bytes
        && (m.bytes > 0 && q.ins[m.i].enqueued >= q.ins[m.i].reserve ==> q.ins[m.i].ready && q.available[m.i])
        && Looked(q, old(mail)[1..], w, arrived, old(calls))
    {
      hide Able;
      hide Worked;
      hide Urgent;
      hide Awake;
      hide Record;
      hide Honest;
      MissedAble();
      var m := mail[0];
      mail := mail[1..];
      assert old(mail) == [m] + mail;
      if state == DONE {
        DoneSleeps();
        return;
      }
      TakeBuffer(m.i, m.bytes);
      TaskMain(w, arrived);
    }

    /** A message for an input makes it available and ready whatever is queued. */
    method HandleInputMsg(w: Work, arrived: seq<Letter>)
      requires Valid() && mail != [] && mail[0].Message? && mail[0].i < |ins| && Suits(Now(), w) && Setup !in arrived
      modifies this
      ensures Valid() && kept == old(kept) && (missed ==> kept > 0)
      ensures old(Faithful()) && Honest(w) ==> Faithful()
      ensures Since(old(mail), arrived, |old(ins)|, |old(outs)|)
      ensures old(state) == DONE ==> Now() == old(Now()) && mail == old(mail)[1..]
      ensures old(state) != DONE ==>
        var m, p := old(mail)[0], old(Now());
        var q := Reread(p.(ins := p.ins[m.i := Told(p.ins[m.i])]), m.i);
        q.ins[m.i].ready && q.available[m.i] && Looked(q, old(mail)[1..], w, arrived, old(calls))
    {
      hide Able;
      hide Worked;
      hide Urgent;
      hide Awake;
      hide Record;
      hide Honest;
      MissedAble();
      var m := mail[0];
      mail := mail[1..];
      assert old(mail) == [m] + mail;
      if state == DONE {
        DoneSleeps();
        return;
      }
      TakeMessage(m.i);
      TaskMain(w, arrived);
    }

    /** An output buffer has come back. */
    method HandleOutputBuffer(w: Work, arrived: seq<Letter>)
      requires Valid() && mail != [] && mail[0].Returned? && mail[0].o < |outs| && Suits(Now(), w) && Setup !in arrived
      modifies this
      ensures Valid() && kept == old(kept) && (missed ==> kept > 0)
      ensures old(Faithful()) && Honest(w) ==> Faithful()
      ensures Since(old(mail), arrived, |old(ins)|, |old(outs)|)
      ensures old(state) == DONE ==> Now() == old(Now()) && mail == old(mail)[1..]
      ensures old(state) != DONE ==>
        var m, p := old(mail)[0], old(Now());
        Looked(p.(outs := p.outs[m.o := Refilled(p.outs[m.o], m.room, m.mine)]), old(mail)[1..], w, arrived, old(calls))
    {
      hide Able;
      hide Worked;
      hide Urgent;
      hide Awake;
      hide Record;
      hide Honest;
      MissedAble();
      var m := mail[0];
      mail := mail[1..];
      assert old(mail) == [m] + mail;
      if state == DONE {
        DoneSleeps();
        return;
      }
      TakeReturned(m.o, m.room, m.mine);
      TaskMain(w, arrived);
    }

    /** A producer is done: its bit is set or reset, work gets one more attempt, and then the
        block is done exactly when it was, work said so, or the input will bring nothing more. */
    method HandleInputCheck(w: Work, arrived: seq<Letter>)
      requires Valid() && mail != [] && mail[0].Check? && mail[0].i < |ins| && Suits(Now(), w) && Setup !in arrived
      modifies this
      ensures Valid() && kept == old(kept) && (missed ==> kept > 0)
      ensures old(Faithful()) && Honest(w) ==> Faithful()
      ensures Since(old(mail), arrived, |old(ins)|, |old(outs)|)
      ensures var m, p := old(mail)[0], old(Now());
        var q := p.(done := p.done[m.i := m.unique]);
        var r := if kept == 0 && Able(q) && (forall k :: k in old(mail)[1..] ==> !Urgent(k)) then Worked(q, w) else q;
        && Now() == (if MustEnd(r, m.i) then Ended(r) else r)
        && mail == (if kept == 0 && Able(q) && (forall k :: k in old(mail)[1..] ==> !Urgent(k))
                    then old(mail)[1..] + arrived
                         + if Able(r) && forall k :: k in arrived ==> !Urgent(k) then [Kick] else []
                    else old(mail)[1..])
        && (old(Faithful()) && Honest(w) && r.state != DONE ==> Checked(r, m.i, spoilt, state == DONE))
      ensures var m := old(mail)[0];
        !m.unique && old(ins)[m.i].reserve != 0 && !w.finish && old(state) != DONE ==> state == old(state)
    {
      hide Checked;
      hide MustEnd;
      hide Ended;
      hide Able;
      hide Worked;
      hide Urgent;
      hide Awake;
      hide Record;
      hide Honest;
      var m := mail[0];
      mail := mail[1..];
      assert old(mail) == [m] + mail;
      CheckToken(m.i, m.unique);
      WorkedKeeps(Now(), w, m.i);
      TaskMain(w, arrived);
      EndIfDone(m.i);
    }

    /** The test for done, and its consequence. */
    method EndIfDone(i: nat)
      requires Valid() && i < |ins|
      modifies this`state, this`ins, this`outs, this`missed
      ensures Valid() && (missed ==> old(missed)) && |ins| == |old(ins)| && |outs| == |old(outs)|
      ensures Now() == if MustEnd(old(Now()), i) then Ended(old(Now())) else old(Now())
      ensures old(state) != DONE && old(ins)[i].reserve != 0 && !old(done)[i] ==> state == old(state)
      ensures old(Faithful()) && old(state) != DONE ==> Checked(old(Now()), i, spoilt, state == DONE)
      ensures old(Faithful()) ==> Faithful()
    {
      hide Able;
      hide Record;
      hide Checked;
      if Faithful() && state != DONE {
        RecordChecked(Now(), i, spoilt, held, calls);
      }
      if MustEnd(Now(), i) {
        MarkDone();
      }
    }

    /** Anybody may send, but set-up broadcasts go only to a block that is not LIVE, before
        its activation. */
    method Deliver(m: Letter)
      requires Valid() && (m == Setup ==> state != LIVE && Active !in mail) && (m == Active ==> Setup !in mail)
      modifies this`mail
      ensures Valid() && mail == old(mail) + [m]
    {
      mail := mail + [m];
    }

    /** A sender that keeps its copy of the token while it waits for the answer. */
    method Keep()
      requires Valid()
      modifies this`kept
      ensures Valid() && kept == old(kept) + 1
    {
      kept := kept + 1;
    }

    method Drop()
      requires Valid() && kept > 0
      modifies this`kept
      ensures Valid() && kept == old(kept) - 1
    {
      kept := kept - 1;
    }

    /** Letters name ports the block has. */
    predicate Addressed(ms: seq<Letter>)
      reads this
    {
      AddressedTo(ms, |ins|, |outs|)
    }

    /** The handler of the first letter. */
    method Handle(w: Work, arrived: seq<Letter>)
      requires Valid() && mail != [] && Addressed(mail) && Suits(Now(), w) && Setup !in arrived && Addressed(arrived)
      modifies this
      ensures Valid() && kept == old(kept) && Addressed(mail)
      ensures old(kept) == 0 && !old(missed) ==> !missed
      ensures old(Faithful()) && Honest(w) && !(old(mail)[0] == Active && old(state) == DONE) ==> Faithful()
    {
      hide Record;
      hide Honest;
      if mail[0] in {Call, Stats, Active, Inert, Setup} {
        HandleControl();
      } else {
        HandleLook(w, arrived);
      }
    }

    method HandleControl()
      requires Valid() && mail != [] && Addressed(mail) && mail[0] in {Call, Stats, Active, Inert, Setup}
      modifies this
      ensures Valid() && kept == old(kept) && Addressed(mail) && (missed ==> old(missed))
      ensures old(Faithful()) && !(old(mail)[0] == Active && old(state) == DONE) ==> Faithful()
    {
      hide Record;
      ghost var was := mail;
      hide Able;
      if mail[0] in {Call, Stats} {
        HandleCallable();
      } else if mail[0] == Active {
        HandleTopActive();
      } else if mail[0] == Inert {
        HandleTopInert();
      } else {
        HandleSetup();
      }
      assert forall m :: m in mail ==> m in was || m == Kick;
    }

    method HandleLook(w: Work, arrived: seq<Letter>)
      requires Valid() && mail != [] && Addressed(mail) && mail[0] !in {Call, Stats, Active, Inert, Setup}
      requires Suits(Now(), w) && Setup !in arrived && Addressed(arrived)
      modifies this
      ensures Valid() && kept == old(kept) && Addressed(mail) && (missed ==> kept > 0)
      ensures old(Faithful()) && Honest(w) ==> Faithful()
    {
      hide Record;
      hide Honest;
      ghost var was, inputs, outputs := mail, |ins|, |outs|;
      assert mail[0] in mail;
      hide Able;
      hide Looked;
      hide Worked;
      hide Ended;
      hide MustEnd;
      hide Awake;
      hide SetUp;
      hide Since;
      if mail[0].Kick? {
        HandleSelfKick(w, arrived);
      } else if mail[0].Buffer? {
        HandleInputBuffer(w, arrived);
      } else if mail[0].Message? {
        HandleInputMsg(w, arrived);
      } else if mail[0].Returned? {
        HandleOutputBuffer(w, arrived);
      } else {
        HandleInputCheck(w, arrived);
      }
      StillAddressed(was, arrived, inputs, outputs);
    }

    lemma StillAddressed(was: seq<Letter>, arrived: seq<Letter>, inputs: nat, outputs: nat)
      requires Since(was, arrived, inputs, outputs) && AddressedTo(was, inputs, outputs) && AddressedTo(arrived, inputs, outputs)
      ensures Addressed(mail)
    {
    }

    /** With an empty mailbox, the block has work it could do, and nothing to wake it, if and
        only if its last look found a copy of the token kept by a sender whose letter was
        already handled. */
    lemma LostWakeup()
      requires Valid() && mail == []
      ensures Able(Now()) <==> missed
    {
    }

    /** With an empty mailbox and bits that agree with the queues, there is nothing that the block
        could do; or its last look was refused for a kept copy, or work failed a port. */
    lemma NothingToDo()
      requires Valid() && Faithful() && mail == []
      ensures Workable(Now()) ==> missed || spoilt != {} || held != {}
    {
      AbleMeans(Now(), spoilt, held);
    }

    /** Something happens to the block. Letters that cannot come, and calls of work that do not suit
        the block, are skipped. revived: a done block is activated. */
    method Happens(e: Event) returns (ghost revived: bool)
      requires Valid() && Addressed(mail)
      modifies this
      ensures Valid() && Addressed(mail)
      ensures old(Faithful()) && !revived ==> Faithful()
      ensures e != Keeps && old(kept) == 0 && !old(missed) ==> kept == 0 && !missed
    {
      hide Record;
      revived := false;
      match e {
        case Comes(m) =>
          if Addressed([m]) && (m == Setup ==> state != LIVE && Active !in mail) && (m == Active ==> Setup !in mail) {
            assert m in [m];
            Deliver(m);
          }
        case Turns(w, arrived) =>
          if mail != [] && Suits(Now(), w) && Honest(w) && Setup !in arrived && Addressed(arrived) {
            revived := mail[0] == Active && state == DONE;
            Handle(w, arrived);
          }
        case Keeps => Keep();
        case Drops =>
          if kept > 0 { Drop(); }
      }
    }

    /** Any run. As long as no done block is activated, work is called only with something to do and
        nobody asking for priority (Faithful says so of every call), and no wakeup is lost: with an
        empty mailbox there is nothing the block could do, unless its last look was refused for a
        kept copy, or work failed a port and nothing has come there since. Without kept copies no
        look is ever refused. */
    method Lives(events: seq<Event>) returns (ghost revived: bool)
      requires Valid() && Addressed(mail)
      modifies this
      ensures Valid() && Addressed(mail)
      ensures old(Faithful()) && !revived ==> Faithful()
      ensures Keeps !in events && old(kept) == 0 && !old(missed) ==> kept == 0 && !missed
      ensures mail == [] && !missed ==> !Able(Now())
      ensures old(Faithful()) && !revived && mail == [] && !missed && spoilt == {} && held == {} ==> !Workable(Now())
    {
      hide Record;
      hide Workable;
      revived := false;
      for k := 0 to |events|
        invariant Valid() && Addressed(mail)
        invariant old(Faithful()) && !revived ==> Faithful()
        invariant Keeps !in events && old(kept) == 0 && !old(missed) ==> kept == 0 && !missed
      {
        ghost var again := Happens(events[k]);
        revived := revived || again;
      }
      if mail == [] {
        LostWakeup();
        if Faithful() {
          NothingToDo();
        }
      }
    }
  }

  /** A caller keeps its copy until the call returns: the kick that answers the call can be
      handled before, finds the token taken, and after the return nothing wakes the block. */
  method CallerKeepsCopy() returns (a: BlockActor)
    ensures fresh(a) && a.Valid() && a.mail == [] && a.kept == 0 && a.missed && a.IsWorkAllowed()
  {
    var w := Work([Use(0, 0, 1, false)], [ROOMY], false);
    OneAble(HALF, true, false);
    a := new BlockActor([HALF], [ROOMY]);
    assert a.available == [true] && a.done == [false];
    hide Worked;
    hide Able;
    a.Deliver(Active);
    a.Keep();
    a.Deliver(Call);
    a.HandleTopActive();
    a.HandleCallable();
    assert a.Now() == Ports(LIVE, [HALF], [true], [false], [ROOMY]) && a.mail == [Kick, Kick];
    a.HandleSelfKick(w, []);
    assert a.mail == [Kick];
    a.HandleSelfKick(w, []);
    assert a.mail == [];
    a.Drop();
  }

  const ROOMY: OutPort := OutPort([100], 1, true)

  /** Worked, on one input that work reads four bytes of, or none. */
  lemma OneInput(p: InPort, avail: bool, done: bool, u: Use)
    ensures var t := Trimmed(p, u);
      Worked(Ports(LIVE, [p], [avail], [done], [ROOMY]), Work([u], [ROOMY], false))
      == Ports(LIVE, [Refreshed(t)], [Available(t)], [done], [ROOMY])
  {
    var q, w := Ports(LIVE, [p], [avail], [done], [ROOMY]), Work([u], [ROOMY], false);
    assert TrimmedTo(q, w, 0) == q;
    assert TrimmedTo(q, w, 1) == Reread(q.(ins := [Trimmed(p, u)]), 0);
  }

  lemma OneAble(p: InPort, avail: bool, done: bool)
    ensures Able(Ports(LIVE, [p], [avail], [done], [ROOMY])) <==> p.ready && avail
  {
    assert [p][0] == p && [avail][0] == avail && [ROOMY][0] == ROOMY;
  }

  const HALF: InPort := InPort(1, 4, 1, 0, true)
  const EMPTY: InPort := InPort(0, 0, 1, 0, false)

  /** A LIVE block with data when the check comes, whose work does nothing in the attempt that
      the check gives it. */
  method ChecksHalf() returns (a: BlockActor)
    ensures fresh(a) && a.Valid() && a.kept == 0
    ensures a.Now() == Ports(LIVE, [HALF], [true], [true], [ROOMY]) && a.mail == [Kick, Kick]
  {
    var none := Use(0, 0, 1, false);
    OneInput(HALF, true, true, none);
    OneAble(HALF, true, true);
    assert Trimmed(HALF, none) == HALF && Refreshed(HALF) == HALF && Available(HALF);
    assert !MustEnd(Ports(LIVE, [HALF], [true], [true], [ROOMY]), 0);
    hide Worked;
    hide Able;
    hide Trimmed;
    hide MustEnd;
    hide Ended;
    a := ActiveHalf();
    assert a.mail[1..] == [Kick];
    a.HandleInputCheck(Work([none], [ROOMY], false), []);
  }

  method ActiveHalf() returns (a: BlockActor)
    ensures fresh(a) && a.Valid() && a.kept == 0
    ensures a.Now() == Ports(LIVE, [HALF], [true], [false], [ROOMY]) && a.mail == [Check(0, true), Kick]
  {
    hide Worked;
    hide Able;
    hide MustEnd;
    hide Ended;
    hide Record;
    hide Refreshed;
    a := new BlockActor([HALF], [ROOMY]);
    assert a.available == [true] && a.done == [false];
    OneAble(HALF, true, false);
    a.Deliver(Active);
    a.Deliver(Check(0, true));
    a.HandleTopActive();
  }

  /** The test for done is made once per check: a block whose input still holds data then, and
      which drains afterwards, stays LIVE with an empty mailbox, although the test would now
      succeed. Only the sweeper's message ends it. */
  method DrainsLater() returns (a: BlockActor)
    ensures fresh(a) && a.Valid() && a.mail == [] && a.kept == 0
    ensures a.state == LIVE && a.done == [true] && !Able(a.Now()) && MustEnd(a.Now(), 0)
  {
    var last := Use(4, 0, 0, false);
    OneInput(HALF, true, true, last);
    OneAble(HALF, true, true);
    OneAble(EMPTY, false, true);
    assert Trimmed(HALF, last) == EMPTY && Refreshed(EMPTY) == EMPTY && !Available(EMPTY);
    hide Worked;
    hide Able;
    hide Trimmed;
    a := ChecksHalf();
    assert a.mail[1..] == [Kick];
    a.HandleSelfKick(Work([last], [ROOMY], false), []);
    assert a.Now() == Ports(LIVE, [EMPTY], [false], [true], [ROOMY]) && a.mail == [Kick];
    assert a.mail[1..] == [];
    a.HandleSelfKick(Work([last], [ROOMY], false), []);
  }

  /** Back-pressure: with data queued but no output buffer a kick is spent and nothing changes; when
      the buffer comes back, work runs and the data are used. */
  method HeldBack() returns (a: BlockActor, waiting: Ports, left: nat)
    ensures fresh(a) && a.Valid() && waiting == Ports(LIVE, [HALF], [true], [false], [FULL]) && left == 0
    ensures a.Now() == Ports(LIVE, [EMPTY], [false], [false], [ROOMY])
    ensures a.calls == [Called(Ports(LIVE, [HALF], [true], [false], [BACK]), 0, [])]
  {
    a := Kicked();
    waiting, left := a.Now(), |a.mail|;
    RoomBack(a);
  }

  method Kicked() returns (a: BlockActor)
    ensures fresh(a) && a.Valid() && a.Now() == Ports(LIVE, [HALF], [true], [false], [FULL]) && a.mail == [] && a.kept == 0
    ensures a.calls == []
  {
    assert Refreshed(HALF) == HALF && Available(HALF);
    a := new BlockActor([HALF], [FULL]);
    assert a.available == [true] && a.done == [false];
    NoRoom();
    hide Able;
    hide Worked;
    a.Deliver(Active);
    a.HandleTopActive();
    assert a.mail[1..] == [];
    a.HandleSelfKick(Work([Use(4, 0, 0, false)], [ROOMY], false), []);
  }

  method RoomBack(a: BlockActor)
    requires a.Valid() && a.Now() == Ports(LIVE, [HALF], [true], [false], [FULL]) && a.mail == [] && a.kept == 0 && a.calls == []
    modifies a
    ensures a.Valid() && a.Now() == Ports(LIVE, [EMPTY], [false], [false], [ROOMY])
    ensures a.calls == [Called(Ports(LIVE, [HALF], [true], [false], [BACK]), 0, [])]
  {
    var w := Work([Use(4, 0, 0, false)], [ROOMY], false);
    NoRoom();
    UsesAll(w);
    hide Able;
    hide Worked;
    hide Refilled;
    a.Deliver(Returned(0, 8, true));
    assert a.mail[1..] == [] && [FULL][0 := BACK] == [BACK];
    a.HandleOutputBuffer(w, []);
  }

  const FULL: OutPort := OutPort([], 1, false)
  const BACK: OutPort := OutPort([8], 1, true)

  lemma NoRoom()
    ensures !Able(Ports(LIVE, [HALF], [true], [false], [FULL]))
    ensures Able(Ports(LIVE, [HALF], [true], [false], [BACK]))
    ensures Refilled(FULL, 8, true) == BACK
  {
    assert [FULL][0] == FULL && [BACK][0] == BACK && [true][0];
    assert !AllOutsReady([FULL]);
  }

  /** Work that uses all four bytes. */
  lemma UsesAll(w: Work)
    requires w == Work([Use(4, 0, 0, false)], [ROOMY], false)
    ensures Worked(Ports(LIVE, [HALF], [true], [false], [BACK]), w) == Ports(LIVE, [EMPTY], [false], [false], [ROOMY])
    ensures !Able(Ports(LIVE, [EMPTY], [false], [false], [ROOMY]))
  {
    OneInput(HALF, true, false, w.uses[0]);
    OneAble(EMPTY, false, false);
    assert Ports(LIVE, [HALF], [true], [false], [BACK]).(outs := w.outs) == Ports(LIVE, [HALF], [true], [false], [ROOMY]).(outs := w.outs);
  }

  // ---------------------------------------------------------------- one buffer, one check

  /** A LIVE block waiting for data, its mailbox empty. */
  method Starved() returns (a: BlockActor)
    ensures fresh(a) && a.Valid() && a.Now() == Ports(LIVE, [EMPTY], [false], [false], [ROOMY]) && a.mail == [] && a.kept == 0
    ensures a.calls == []
  {
    hide Able;
    hide Worked;
    hide Record;
    hide Refreshed;
    a := new BlockActor([EMPTY], [ROOMY]);
    assert a.available == [false] && a.done == [false];
    OneAble(EMPTY, false, false);
    a.Deliver(Active);
    a.HandleTopActive();
    assert a.mail[1..] == [];
    a.HandleSelfKick(Work([Use(0, 0, 0, false)], [ROOMY], false), []);
  }

  const EIGHT: InPort := InPort(1, 8, 1, 0, true)

  lemma EightComes()
    ensures var p := Ports(LIVE, [EMPTY], [false], [false], [ROOMY]);
      Reread(p.(ins := p.ins[0 := Fed(p.ins[0], 8)]), 0) == Ports(LIVE, [EIGHT], [true], [false], [ROOMY])
    ensures Able(Ports(LIVE, [EIGHT], [true], [false], [ROOMY])) && !Able(Ports(LIVE, [EMPTY], [false], [false], [ROOMY]))
    ensures Worked(Ports(LIVE, [EIGHT], [true], [false], [ROOMY]), Work([Use(8, 0, 0, false)], [ROOMY], false))
         == Ports(LIVE, [EMPTY], [false], [false], [ROOMY])
  {
    OneInput(EIGHT, true, false, Use(8, 0, 0, false));
    OneAble(EIGHT, true, false);
    OneAble(EMPTY, false, false);
    assert [EMPTY][0 := Fed(EMPTY, 8)] == [Fed(EMPTY, 8)];
  }

  /** Data come to it, and work is called with them. */
  method DataWakes() returns (a: BlockActor)
    ensures fresh(a) && a.Valid() && a.Now() == Ports(LIVE, [EMPTY], [false], [false], [ROOMY]) && a.mail == []
    ensures a.calls == [Called(Ports(LIVE, [EIGHT], [true], [false], [ROOMY]), 0, [])]
  {
    a := Starved();
    DataComes(a);
  }

  method DataComes(a: BlockActor)
    requires a.Valid() && a.Now() == Ports(LIVE, [EMPTY], [false], [false], [ROOMY]) && a.mail == [] && a.kept == 0 && a.calls == []
    modifies a
    ensures a.Valid() && a.Now() == Ports(LIVE, [EMPTY], [false], [false], [ROOMY]) && a.mail == []
    ensures a.calls == [Called(Ports(LIVE, [EIGHT], [true], [false], [ROOMY]), 0, [])]
  {
    hide Able;
    hide Worked;
    hide Fed;
    hide Reread;
    hide Refreshed;
    hide Available;
    EightComes();
    a.Deliver(Buffer(0, 8));
    assert a.mail[1..] == [];
    a.HandleInputBuffer(Work([Use(8, 0, 0, false)], [ROOMY], false), []);
  }

  /** The first of two producers has gone, the second still holds the token: the check leaves the
      block LIVE. */
  method OneProducerLeft() returns (a: BlockActor)
    ensures fresh(a) && a.Valid() && a.state == LIVE && a.done == [false] && a.mail == []
  {
    OneAble(EMPTY, false, false);
    hide Able;
    hide Worked;
    hide Ended;
    a := Starved();
    a.Deliver(Check(0, false));
    assert a.mail[1..] == [] && [false][0 := false] == [false];
    a.HandleInputCheck(Work([Use(0, 0, 0, false)], [ROOMY], false), []);
  }

  /** Where the inputs' reserves differ, the test at one without reserve passes over data that are
      less than another input's reserve: the block ends and they are dropped. */
  lemma EndsWithRemainder()
    ensures var p := Ports(LIVE, [InPort(0, 0, 0, 0, true), InPort(1, 2, 4, 0, false)], [false, false], [true, true], [ROOMY]);
      Agrees(p, {}, {}) && MustEnd(p, 0) && p.ins[1].enqueued == 2 && Ended(p).ins[1].enqueued == 0
  {
  }
}
