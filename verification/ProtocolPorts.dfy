/** Which output ports can count as done: those that somebody reads. */
module ProtocolPorts {
  import opened BlockStates
  import opened Protocol
  import opened ProtocolBarrier
  import opened ProtocolStart
  import opened ProtocolDone
  import opened ProtocolRuns

  /** Somebody reads output o of block b. */
  ghost predicate IsRead(g: Graph, b: nat, o: nat) {
    exists d: nat :: Reads(g, d, b, o)
  }

  ghost predicate WiredOp(g: Graph, b: nat, op: Op) {
    match op
    case CheckOut(o) => IsRead(g, b, o)
    case Post(u, m) => m.OutputCheck? ==> IsRead(g, u, m.o)
    case _ => true
  }

  /** Checks of outputs concern ports that are read, and so do done bits. */
  ghost predicate Wired(g: Graph, b: nat, x: Block) {
    && (forall o :: OutputCheck(o) in x.mail ==> IsRead(g, b, o))
    && (forall op :: op in x.todo ==> WiredOp(g, b, op))
    && (forall o :: o in x.outputsDone ==> IsRead(g, b, o))
  }

  ghost predicate AllWired(g: Graph, s: Sys) {
    |s.blocks| == g.n && forall b :: 0 <= b < g.n ==> Wired(g, b, s.blocks[b])
  }

  lemma ChecksWired(g: Graph, b: nat, op: Op)
    requires op in CheckPosts(g, b)
    ensures WiredOp(g, b, op)
  {
    CheckPostsAre(g, b, op);
    if op.Post? && op.msg.OutputCheck? {
      var e :| e in g.edges && e.dst == b && op == Post(e.src, OutputCheck(e.out));
      assert Reads(g, b, e.src, e.out);
    }
  }

  lemma WiredMore(g: Graph, s: Sys, b: nat, c: Choice, op: Op)
    requires b < |s.blocks| && s.blocks[b].todo != [] && Allowed(g, s, b, c) && op in Extra(g, s, b, c)
    ensures WiredOp(g, b, op)
  {
    if op in CheckPosts(g, b) {
      ChecksWired(g, b, op);
    }
  }

  lemma WiredLocal(g: Graph, s: Sys, b: nat, c: Choice)
    requires Running(g, s) && b < g.n && s.blocks[b].todo != [] && Allowed(g, s, b, c) && Wired(g, b, s.blocks[b])
    ensures Wired(g, b, Local(g, s, b, c))
  {
    var x, y := s.blocks[b], Local(g, s, b, c);
    LocalTodo(g, s, b, c);
    LocalEffect(g, s, b, c);
    EffectLearns(g, s, b, Extra(g, s, b, c));
    forall op | op in y.todo ensures WiredOp(g, b, op) {
      if op in Extra(g, s, b, c) {
        WiredMore(g, s, b, c, op);
      } else {
        assert op in x.todo;
      }
    }
    assert x.todo[0] in x.todo && WiredOp(g, b, x.todo[0]);
    hide Local;
    hide Effect;
    hide Extra;
    hide Allowed;
    hide Running;
    hide ReadOut;
    hide FedOut;
    hide IsRead;
  }

  lemma WiredHandler(g: Graph, b: nat, x: Block)
    requires Wired(g, b, x) && x.mail != [] && x.mail[0] != Top(TOKENS)
    ensures Wired(g, b, x.(mail := x.mail[1..], todo := Handler(g, b, x.mail[0])))
  {
    var m := x.mail[0];
    assert m in x.mail && forall k :: k in x.mail[1..] ==> k in x.mail;
    hide IsRead;
    forall op | op in Handler(g, b, m) ensures WiredOp(g, b, op) {
    }
  }

  lemma WiredExecuted(g: Graph, s: Sys, b: nat, op: Op, y: Block, s': Sys)
    requires AllWired(g, s) && Executed(s, b, op, y, s') && Wired(g, b, y)
    ensures AllWired(g, s')
  {
    hide IsRead;
    assert Wired(g, b, s.blocks[b]) && op in s.blocks[b].todo && WiredOp(g, b, op);
    forall d: nat | d < g.n ensures Wired(g, d, s'.blocks[d]) {
      assert Wired(g, d, Kept(s, b, y, d));
    }
  }

  lemma WiredTake(g: Graph, s: Sys, b: nat)
    requires Running(g, s) && AllWired(g, s) && Enabled(g, s, Take(b))
    ensures AllWired(g, Apply(g, s, Take(b)))
  {
    var x := s.blocks[b];
    assert Grown(g, b, x) && x.mail[0] in x.mail && CalmMsg(x.mail[0]);
    WiredHandler(g, b, x);
    hide Handler;
    hide Running;
    hide Wired;
  }

  lemma WiredKeeps(g: Graph, s: Sys, t: Step)
    requires Running(g, s) && AllWired(g, s) && Enabled(g, s, t)
    ensures AllWired(g, Apply(g, s, t))
  {
    match t {
      case Exec(b, c) =>
        BarrierShape(g, s);
        ExecEffect(g, s, b, c);
        hide *;
        WiredExec(g, s, b, c);
      case Take(b) => WiredTake(g, s, b);
      case _ =>
        hide Running;
        hide IsRead;
        hide WiredOp;
    }
  }

  lemma WiredExec(g: Graph, s: Sys, b: nat, c: Choice)
    requires Running(g, s) && AllWired(g, s) && Enabled(g, s, Exec(b, c))
    ensures AllWired(g, Apply(g, s, Exec(b, c)))
  {
    ExecEffect(g, s, b, c);
    assert Wired(g, b, s.blocks[b]);
    WiredLocal(g, s, b, c);
    hide *;
    WiredExecuted(g, s, b, s.blocks[b].todo[0], Local(g, s, b, c), Apply(g, s, Exec(b, c)));
  }

  lemma WiredStarts(g: Graph, s: Sys)
    requires Starting(g, s) && Enabled(g, s, NextPhase) && s.main.phase == ALLOC
    ensures AllWired(g, Apply(g, s, NextPhase))
  {
    forall b: nat | b < g.n ensures Wired(g, b, s.blocks[b]) {
      TokensDelivered(g, s, b);
    }
  }

  lemma {:induction false} RunWired(g: Graph, r: seq<Sys>, k: nat)
    requires Run(g, r) && k < |r| && Running(g, r[k])
    ensures AllWired(g, r[k])
  {
    hide Running;
    hide Starting;
    hide AllWired;
    hide Enabled;
    hide Apply;
    NotYetRunning(g, r);
    if k > 0 {
      var j: nat := k - 1;
      RunInv(g, r, j);
      var t := RunNext(g, r, j);
      if Running(g, r[j]) {
        RunWired(g, r, j);
        WiredKeeps(g, r[j], t);
      } else {
        FirstRunning(g, r[j], t);
        WiredStarts(g, r[j]);
      }
    }
  }

  /** An output port that nobody reads never counts as done: no check of it is ever sent. */
  lemma UnreadNeverDone(g: Graph, r: seq<Sys>, k: nat, b: nat, o: nat)
    requires Run(g, r) && k < |r| && b < |r[k].blocks| && o in r[k].blocks[b].outputsDone
    ensures IsRead(g, b, o)
  {
    RunInv(g, r, k);
    if Starting(g, r[k]) {
      StartingBlock(g, r[k], b);
    } else {
      RunWired(g, r, k);
      assert Wired(g, b, r[k].blocks[b]);
    }
  }

  /** With nothing in flight, a block with outputs whose every consumer has let go finds all its
      outputs done if and only if every one of its output ports is read by somebody; and then it
      has let go itself. */
  lemma BackPropagation(g: Graph, r: seq<Sys>, k: nat, b: nat)
    requires Run(g, r) && k < |r| && Quiescent(r[k]) && b < g.n && HasOutput(g, b)
    requires forall d: nat, o: nat :: Reads(g, d, b, o) ==> d < |r[k].blocks| && r[k].blocks[d].released
    ensures b < |r[k].blocks|
    ensures AllOutputsDone(g, b, r[k].blocks[b].outputsDone) <==> forall o: nat :: o < g.outs[b] ==> IsRead(g, b, o)
    ensures (forall o: nat :: o < g.outs[b] ==> IsRead(g, b, o)) ==> r[k].blocks[b].released
  {
    QuiescentRuns(g, r, k);
    var s := r[k];
    BarrierShape(g, s);
    forall o: nat | o < g.outs[b] ensures o in s.blocks[b].outputsDone <==> IsRead(g, b, o) {
      if IsRead(g, b, o) {
        var d: nat :| Reads(g, d, b, o);
        assert ReadOut(g, s, b, o);
        DoneIsExact(g, r, k, b, d, o);
      } else if o in s.blocks[b].outputsDone {
        UnreadNeverDone(g, r, k, b, o);
      }
    }
    assert Grown(g, b, s.blocks[b]);
    hide Running;
    hide IsRead;
  }
}
