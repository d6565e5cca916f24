/** No data behind a done mark: when an input with a single producer is declared done, every
    buffer that producer posted has been taken in. */
module ProtocolData {
  import opened BlockStates
  import opened Protocol
  import opened ProtocolBarrier
  import opened ProtocolStart
  import opened ProtocolDone
  import opened ProtocolRuns

  predicate IsData(op: Op) {
    op.Post? && op.msg.Data?
  }

  predicate NoData(todo: seq<Op>) {
    forall op :: op in todo ==> !IsData(op)
  }

  /** Buffers are posted before anything else. */
  predicate DataFirst(todo: seq<Op>) {
    todo == [] || if IsData(todo[0]) then DataFirst(todo[1..]) else NoData(todo[1..])
  }

  /** Input checks are posted only once the pool is cleared. */
  predicate ChecksAfter(todo: seq<Op>, released: bool) {
    todo == [] ||
    if todo[0].Post? && todo[0].msg.InputCheck? then released && ChecksAfter(todo[1..], released)
    else ChecksAfter(todo[1..], released || todo[0] == ClearPool)
  }

  /** Block b posts data and checks in its own name, to its own consumers. */
  ghost predicate Own(g: Graph, b: nat, op: Op) {
    op.Post? ==>
      && (op.msg.Data? ==> op.msg.src == b && Feeds(g, b, op.to, op.msg.i))
      && (op.msg.InputCheck? ==> Feeds(g, b, op.to, op.msg.i))
  }

  ghost predicate Orderly(g: Graph, b: nat, x: Block) {
    && DataFirst(x.todo) && ChecksAfter(x.todo, x.released)
    && (x.state == DONE ==> NoData(x.todo))
    && forall op :: op in x.todo ==> Own(g, b, op)
  }

  ghost predicate OnlyFeeder(g: Graph, u: nat, b: nat, i: nat) {
    u < g.n && b < g.n && Feeds(g, u, b, i) && forall v :: Feeds(g, v, b, i) ==> v == u
  }

  /** From the first input check in b's mailbox on, u has nothing more to say. */
  ghost predicate Behind(x: Block, u: nat, i: nat, gone: bool) {
    && (forall k :: 0 <= k < |x.mail| && x.mail[k] == InputCheck(i) ==>
          gone && forall j :: k < j < |x.mail| ==> x.mail[j] != Data(i, u))
    && (CheckIn(i) in x.todo || i in x.inputsDone ==> gone && Data(i, u) !in x.mail)
  }

  ghost predicate Sound(g: Graph, s: Sys) {
    && |s.blocks| == g.n && (forall b :: 0 <= b < g.n ==> Orderly(g, b, s.blocks[b]))
    && forall u: nat, b: nat, i {:trigger OnlyFeeder(g, u, b, i)} | u < g.n && b < g.n && OnlyFeeder(g, u, b, i)
         && !s.blocks[u].revived :: Behind(s.blocks[b], u, i, s.blocks[u].released)
  }

  // ---------------------------------------------------------------- order within a handler

  lemma {:induction false} ChecksAnyway(todo: seq<Op>)
    ensures ChecksAfter(todo, true)
  {
    if todo != [] {
      ChecksAnyway(todo[1..]);
    }
  }

  lemma {:induction false} ChecksBehind(front: seq<Op>, rest: seq<Op>, released: bool)
    requires ChecksAfter(rest, released) && forall op :: op in front ==> !(op.Post? && op.msg.InputCheck?)
    ensures ChecksAfter(front + rest, released)
  {
    if front == [] {
      assert front + rest == rest;
    } else {
      assert (front + rest)[0] == front[0] && (front + rest)[1..] == front[1..] + rest;
      if front[0] == ClearPool {
        ChecksAnyway(front[1..] + rest);
      } else {
        ChecksBehind(front[1..], rest, released);
      }
    }
  }

  lemma {:induction false} DataBefore(data: seq<Op>, rest: seq<Op>)
    requires DataFirst(rest) && forall op :: op in data ==> IsData(op)
    ensures DataFirst(data + rest)
  {
    if data == [] {
      assert data + rest == rest;
    } else {
      assert (data + rest)[0] == data[0] && (data + rest)[1..] == data[1..] + rest;
      assert IsData(data[0]);
      DataBefore(data[1..], rest);
    }
  }

  lemma {:induction false} NoDataFirst(todo: seq<Op>)
    requires NoData(todo)
    ensures DataFirst(todo)
  {
    if todo != [] {
      assert todo[0] in todo;
      assert forall op :: op in todo[1..] ==> op in todo;
    }
  }

  /** The posted buffers, the steps of mark_done, the rest. */
  lemma OrderlyClosing(g: Graph, b: nat, data: seq<Op>, rest: seq<Op>, released: bool)
    requires NoData(rest) && DataPosts(g, b, data)
    ensures var todo := data + [SetDone, ClearPool] + CheckPosts(g, b) + rest;
      DataFirst(todo) && ChecksAfter(todo, released) && forall op :: op in todo ==> op in rest || Own(g, b, op)
  {
    var checks := CheckPosts(g, b);
    forall op | op in checks ensures !IsData(op) && Own(g, b, op) {
      CheckPostsAre(g, b, op);
    }
    assert forall op :: op in data ==> IsData(op) && Own(g, b, op);
    hide CheckPosts;
    hide DataPosts;
    hide Own;
    var tail := [SetDone, ClearPool] + checks + rest;
    NoDataFirst(tail);
    DataBefore(data, tail);
    ChecksAnyway(checks + rest);
    assert tail[1..][1..] == checks + rest;
    assert ChecksAfter(tail[1..], released);
    assert ChecksAfter(tail, released);
    hide DataFirst;
    hide ChecksAfter;
    ChecksBehind(data, tail, released);
    assert data + [SetDone, ClearPool] + checks + rest == data + tail;
  }

  lemma OrderlyMore(g: Graph, b: nat, data: seq<Op>, last: seq<Op>, rest: seq<Op>, released: bool)
    requires NoData(rest) && ChecksAfter(rest, released) && DataPosts(g, b, data) && (last == [] || last == [MarkDone])
    ensures var todo := data + last + rest;
      DataFirst(todo) && ChecksAfter(todo, released) && forall op :: op in todo ==> op in rest || Own(g, b, op)
  {
    NoDataFirst(last + rest);
    DataBefore(data, last + rest);
    ChecksBehind(data + last, rest, released);
    assert data + last + rest == data + (last + rest);
  }

  lemma AllowedData(g: Graph, s: Sys, b: nat, c: Choice)
    requires b < |s.blocks| && s.blocks[b].todo != [] && Allowed(g, s, b, c)
    ensures DataPosts(g, b, c.data)
    ensures s.blocks[b].todo[0] == Work && s.blocks[b].state != LIVE ==> c.data == []
  {
  }

  lemma OrderlyEffect(g: Graph, s: Sys, b: nat, c: Choice)
    requires b < |s.blocks| && s.blocks[b].todo != [] && Allowed(g, s, b, c) && Orderly(g, b, s.blocks[b])
    ensures Orderly(g, b, Effect(g, s, b, Extra(g, s, b, c)))
  {
    var x, more := s.blocks[b], Extra(g, s, b, c);
    var y := Effect(g, s, b, more);
    EffectTodo(g, s, b, more);
    EffectLearns(g, s, b, more);
    ExtraShape(g, s, b, c);
    AllowedData(g, s, b, c);
    var checks := CheckPosts(g, b);
    hide Effect;
    hide Extra;
    hide Allowed;
    hide FedOut;
    hide ReadOut;
    OrderlyStep(g, b, x, y, c, more);
  }

  lemma OrderlyPops(todo: seq<Op>, released: bool)
    requires todo != [] && DataFirst(todo) && ChecksAfter(todo, released)
    ensures DataFirst(todo[1..]) && ChecksAfter(todo[1..], released || todo[0] == ClearPool)
    ensures !IsData(todo[0]) ==> NoData(todo[1..])
    ensures todo[0] in todo && forall op :: op in todo[1..] ==> op in todo
  {
    if !IsData(todo[0]) {
      NoDataFirst(todo[1..]);
    }
  }

  lemma OrderlyStep(g: Graph, b: nat, x: Block, y: Block, c: Choice, more: seq<Op>)
    requires x.todo != [] && Orderly(g, b, x) && y.todo == more + x.todo[1..]
    requires y.state == (if x.todo[0] == SetDone then DONE else if x.todo[0] == GoLive then LIVE else x.state)
    requires y.released == (x.released || x.todo[0] == ClearPool)
    requires DataPosts(g, b, c.data) && (x.todo[0] == Work && x.state != LIVE ==> c.data == [])
    requires
      if x.todo[0].Post? || x.todo[0] == SetDone || x.todo[0] == ClearPool then more == []
      else if x.todo[0] == MarkDone && x.state != DONE then more == c.data + [SetDone, ClearPool] + CheckPosts(g, b)
      else if x.todo[0] == Work then more == c.data + (if c.finish then [MarkDone] else [])
      else more == [] || more == [MarkDone]
    ensures Orderly(g, b, y)
  {
    var op, rest := x.todo[0], x.todo[1..];
    OrderlyPops(x.todo, x.released);
    hide Own;
    hide DataPosts;
    hide CheckPosts;
    hide DataFirst;
    hide ChecksAfter;
    if op.Post? || op == SetDone || op == ClearPool {
      assert y.todo == rest;
    } else if op == MarkDone && x.state != DONE {
      OrderlyClosing(g, b, c.data, rest, x.released);
    } else {
      var data := if op == Work then c.data else [];
      var last := if op == Work then (if c.finish then [MarkDone] else []) else more;
      Nothing(g, b);
      assert y.todo == data + last + rest;
      OrderlyMore(g, b, data, last, rest, x.released);
    }
  }

  lemma Nothing(g: Graph, b: nat)
    ensures DataPosts(g, b, [])
  {
  }

  // ---------------------------------------------------------------- between two blocks

  lemma BehindMailed(x: Block, u: nat, i: nat, gone: bool, m: Msg)
    requires Behind(x, u, i, gone) && (m == InputCheck(i) ==> gone) && (m == Data(i, u) ==> !gone)
    ensures Behind(Mailed(x, m), u, i, gone)
  {
  }

  lemma BehindLocal(x: Block, y: Block, u: nat, i: nat, gone: bool, gone': bool)
    requires Behind(x, u, i, gone) && (gone ==> gone') && y.mail == x.mail
    requires CheckIn(i) in y.todo || i in y.inputsDone ==> CheckIn(i) in x.todo || i in x.inputsDone
    ensures Behind(y, u, i, gone')
  {
  }

  /** What block b posts fits what its only reader's input has heard. */
  lemma PostFits(g: Graph, b: nat, x: Block, u: nat, d: nat, i: nat)
    requires Orderly(g, b, x) && Ending(g, b, x) && x.todo != [] && x.todo[0].Post? && x.todo[0].to == d
    requires OnlyFeeder(g, u, d, i)
    ensures x.todo[0].msg == InputCheck(i) ==> b == u && x.released
    ensures x.todo[0].msg == Data(i, u) ==> b == u && (x.revived || !x.released)
  {
    assert x.todo[0] in x.todo && Own(g, b, x.todo[0]);
    hide AllOutputsDone;
    hide HasOutput;
  }

  lemma SoundExecuted(g: Graph, s: Sys, b: nat, op: Op, y: Block, s': Sys)
    requires Running(g, s) && Sound(g, s) && Executed(s, b, op, y, s') && Learns(g, s, b, op, y) && Orderly(g, b, y)
    requires forall i :: CheckIn(i) in y.todo ==> CheckIn(i) in s.blocks[b].todo
    requires s.blocks[b].revived ==> y.revived
    ensures Sound(g, s')
  {
    var x := s.blocks[b];
    assert Orderly(g, b, x) && Grown(g, b, x);
    assert op in x.todo;
    hide Running;
    hide Orderly;
    hide Own;
    hide Ending;
    hide FedOut;
    hide ReadOut;
    forall d: nat | d < g.n ensures Orderly(g, d, s'.blocks[d]) {
      OrderlyMailed(g, d, Kept(s, b, y, d), op);
    }
    forall u: nat, d: nat, i | u < g.n && d < g.n && OnlyFeeder(g, u, d, i) && !s'.blocks[u].revived
      ensures Behind(s'.blocks[d], u, i, s'.blocks[u].released)
    {
      assert Behind(s.blocks[d], u, i, s.blocks[u].released);
      if op.Post? && op.to == d {
        PostFits(g, b, x, u, d, i);
      }
      hide OnlyFeeder;
      BehindExecuted(g, s, b, op, y, s', u, d, i);
    }
  }

  lemma BehindExecuted(g: Graph, s: Sys, b: nat, op: Op, y: Block, s': Sys, u: nat, d: nat, i: nat)
    requires Executed(s, b, op, y, s') && Learns(g, s, b, op, y) && u < |s.blocks| && d < |s.blocks|
    requires forall i :: CheckIn(i) in y.todo ==> CheckIn(i) in s.blocks[b].todo
    requires Behind(s.blocks[d], u, i, s.blocks[u].released) && !s'.blocks[u].revived
    requires s.blocks[b].revived ==> y.revived
    requires op.Post? && op.to == d && op.msg == InputCheck(i) ==> b == u && s.blocks[b].released
    requires op.Post? && op.to == d && op.msg == Data(i, u) ==> b == u && (s.blocks[b].revived || !s.blocks[b].released)
    ensures Behind(s'.blocks[d], u, i, s'.blocks[u].released)
  {
    hide FedOut;
    hide ReadOut;
    hide Behind;
    var z := Kept(s, b, y, d);
    assert op in s.blocks[b].todo;
    BehindLocal(s.blocks[d], z, u, i, s.blocks[u].released, s'.blocks[u].released);
    if op.Post? && op.to == d {
      BehindMailed(z, u, i, s'.blocks[u].released, op.msg);
    }
  }

  lemma OrderlyMailed(g: Graph, b: nat, x: Block, op: Op)
    requires Orderly(g, b, x)
    ensures op.Post? ==> Orderly(g, b, Mailed(x, op.msg))
  {
  }

  lemma SoundExec(g: Graph, s: Sys, b: nat, c: Choice)
    requires Running(g, s) && Sound(g, s) && Enabled(g, s, Exec(b, c))
    ensures Sound(g, Apply(g, s, Exec(b, c)))
  {
    var x, y := s.blocks[b], Effect(g, s, b, Extra(g, s, b, c));
    assert Orderly(g, b, x);
    ExecEffect(g, s, b, c);
    LocalEffect(g, s, b, c);
    LocalTodo(g, s, b, c);
    OrderlyEffect(g, s, b, c);
    EffectLearns(g, s, b, Extra(g, s, b, c));
    Revivals(g, s, b, Extra(g, s, b, c));
    forall i | CheckIn(i) in y.todo ensures CheckIn(i) in x.todo {
      assert !Late(g, CheckIn(i));
    }
    hide *;
    SoundExecuted(g, s, b, x.todo[0], y, Apply(g, s, Exec(b, c)));
  }

  lemma Revivals(g: Graph, s: Sys, b: nat, more: seq<Op>)
    requires b < |s.blocks| && s.blocks[b].todo != []
    ensures s.blocks[b].revived ==> Effect(g, s, b, more).revived
  {
    hide FedOut;
    hide ReadOut;
  }

  lemma OrderlyHandler(g: Graph, b: nat, x: Block)
    requires Orderly(g, b, x) && x.todo == [] && x.mail != [] && x.mail[0] != Top(TOKENS)
    ensures Orderly(g, b, x.(mail := x.mail[1..], todo := Handler(g, b, x.mail[0])))
    ensures forall i :: CheckIn(i) in Handler(g, b, x.mail[0]) ==> x.mail[0] == InputCheck(i)
  {
    var h := Handler(g, b, x.mail[0]);
    assert forall op :: op in h ==> !IsData(op) && !(op.Post? && op.msg.InputCheck?);
    NoDataFirst(h);
    ChecksBehind(h, [], x.released);
    assert h + [] == h;
  }

  lemma BehindTake(x: Block, y: Block, u: nat, i: nat, gone: bool)
    requires Behind(x, u, i, gone) && x.mail != [] && y.mail == x.mail[1..] && y.inputsDone == x.inputsDone
    requires CheckIn(i) in y.todo ==> x.mail[0] == InputCheck(i)
    ensures Behind(y, u, i, gone)
  {
    assert forall j :: 0 <= j < |y.mail| ==> y.mail[j] == x.mail[j + 1];
    assert forall m :: m in y.mail ==> m in x.mail;
  }

  lemma SoundTake(g: Graph, s: Sys, b: nat)
    requires Running(g, s) && Sound(g, s) && Enabled(g, s, Take(b))
    ensures Sound(g, Apply(g, s, Take(b)))
  {
    var s' := Apply(g, s, Take(b));
    var x := s.blocks[b];
    assert Grown(g, b, x) && Orderly(g, b, x);
    assert x.mail[0] in x.mail && CalmMsg(x.mail[0]);
    OrderlyHandler(g, b, x);
    hide Handler;
    hide Orderly;
    hide Running;
    hide Grown;
    forall u: nat, d: nat, i | u < g.n && d < g.n && OnlyFeeder(g, u, d, i) && !s'.blocks[u].revived
      ensures Behind(s'.blocks[d], u, i, s'.blocks[u].released)
    {
      assert Behind(s.blocks[d], u, i, s.blocks[u].released);
      hide OnlyFeeder;
      hide Behind;
      if d == b {
        BehindTake(x, s'.blocks[b], u, i, s.blocks[u].released);
      }
    }
  }

  lemma SoundMail(g: Graph, s: Sys, s': Sys)
    requires Sound(g, s) && |s'.blocks| == |s.blocks|
    requires forall d: nat :: d < |s.blocks| ==>
      (s'.blocks[d] == s.blocks[d] || exists m :: m in {Top(ACTIVE), Inert, Other} && s'.blocks[d] == Mailed(s.blocks[d], m))
    ensures Sound(g, s')
  {
    forall d: nat | d < g.n ensures Orderly(g, d, s'.blocks[d]) {
      assert Orderly(g, d, s.blocks[d]);
    }
    hide Orderly;
    forall u: nat, d: nat, i | u < g.n && d < g.n && OnlyFeeder(g, u, d, i) && !s'.blocks[u].revived
      ensures Behind(s'.blocks[d], u, i, s'.blocks[u].released)
    {
      assert Behind(s.blocks[d], u, i, s.blocks[u].released);
      hide OnlyFeeder;
      if s'.blocks[d] != s.blocks[d] {
        var m := s'.blocks[d].mail[|s.blocks[d].mail|];
        BehindMailed(s.blocks[d], u, i, s.blocks[u].released, m);
      }
    }
  }

  lemma SoundKeeps(g: Graph, s: Sys, t: Step)
    requires Running(g, s) && Sound(g, s) && Enabled(g, s, t)
    ensures Sound(g, Apply(g, s, t))
  {
    match t {
      case Exec(b, c) => SoundExec(g, s, b, c);
      case Take(b) => SoundTake(g, s, b);
      case _ =>
        var s' := Apply(g, s, t);
        BarrierShape(g, s);
        hide Sound;
        SoundMail(g, s, s');
    }
  }

  lemma SoundStarts(g: Graph, s: Sys)
    requires Starting(g, s) && Enabled(g, s, NextPhase) && s.main.phase == ALLOC
    ensures Sound(g, Apply(g, s, NextPhase))
  {
    var s' := Apply(g, s, NextPhase);
    forall b: nat | b < g.n
      ensures Orderly(g, b, s'.blocks[b])
      ensures forall u, i, gone :: Behind(s'.blocks[b], u, i, gone)
    {
      TokensDelivered(g, s, b);
      var x := s.blocks[b];
      NoDataFirst(x.todo);
      ChecksBehind(x.todo, [], false);
      assert x.todo + [] == x.todo;
      hide HoldsAll;
      forall u, i, gone ensures Behind(x, u, i, gone) {
        assert forall k :: 0 <= k < |x.mail| ==> x.mail[k] in x.mail;
      }
    }
  }

  lemma {:induction false} RunSound(g: Graph, r: seq<Sys>, k: nat)
    requires Run(g, r) && k < |r| && Running(g, r[k])
    ensures Sound(g, r[k])
    decreases k, 1
  {
    hide *;
    NotYetRunning(g, r);
    if k > 0 {
      var j: nat := k - 1;
      RunInv(g, r, j);
      var t := RunNext(g, r, j);
      RunStep(g, r, j, t);
    }
  }

  lemma RunStep(g: Graph, r: seq<Sys>, j: nat, t: Step)
    requires Run(g, r) && j + 1 < |r| && (Starting(g, r[j]) || Running(g, r[j])) && Running(g, r[j + 1])
    requires Enabled(g, r[j], t) && r[j + 1] == Apply(g, r[j], t)
    ensures Sound(g, r[j + 1])
    decreases j + 1, 0
  {
    var s := r[j];
    hide Run;
    if Running(g, s) {
      RunSound(g, r, j);
      SoundKeeps(g, s, t);
    } else if t.NextPhase? && s.main.phase == ALLOC {
      SoundStarts(g, s);
    } else {
      StartingKeeps(g, s, t);
    }
  }

  /** When block b counts its input i, fed by u alone, as done, none of u's buffers for it is
      still in a mailbox or about to be posted, now or later in the run, unless u was revived. */
  lemma NoDataBehind(g: Graph, r: seq<Sys>, k: nat, b: nat, u: nat, i: nat)
    requires Run(g, r) && k < |r| && b < |r[k].blocks| && u < |r[k].blocks|
    requires OnlyFeeder(g, u, b, i) && i in r[k].blocks[b].inputsDone && !r[k].blocks[u].revived
    ensures Data(i, u) !in r[k].blocks[b].mail && NoData(r[k].blocks[u].todo)
  {
    RunInv(g, r, k);
    var s := r[k];
    if Starting(g, s) {
      StartingBlock(g, s, b);
    } else {
      RunSound(g, r, k);
      assert Behind(s.blocks[b], u, i, s.blocks[u].released);
      assert Grown(g, u, s.blocks[u]) && Orderly(g, u, s.blocks[u]);
    }
  }
}
