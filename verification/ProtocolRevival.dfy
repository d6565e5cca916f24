/** A run in which a block is LIVE without holding a single token, and wait() may return
    although it is: the block was marked done before its activation reached it. */
module ProtocolRevival {
  import opened BlockStates
  import opened Protocol
  import opened ProtocolBarrier

  ghost predicate Reachable(g: Graph, s: Sys) {
    exists r: seq<Sys> :: Run(g, r) && r[|r| - 1] == s
  }

  lemma Begins(g: Graph, s: Sys)
    requires Initial(g, s)
    ensures Reachable(g, s)
  {
    var r := [s];
    assert Run(g, r) && r[|r| - 1] == s;
  }

  lemma Steps(g: Graph, s: Sys, t: Step, s': Sys)
    requires Reachable(g, s) && Enabled(g, s, t) && s' == Apply(g, s, t)
    ensures Reachable(g, s')
  {
    var r: seq<Sys> :| Run(g, r) && r[|r| - 1] == s;
    var p := r + [s'];
    assert Next(g, s, s');
    forall k {:trigger p[k + 1]} | 0 <= k < |p| - 1 ensures Next(g, p[k], p[k + 1]) {
      if k < |r| - 1 {
        assert Next(g, r[k], r[k + 1]);
      }
    }
    assert Run(g, p) && p[|p| - 1] == s';
  }

  /** Two blocks, the output of the first connected to the input of the second. */
  const PAIR: Graph := Graph(2, [Edge(0, 0, 1, 0)], [1, 0])

  /** The token of the second block's input, held by the first, and the other way round. */
  const IN: Tok := InTok(1, 0)
  const OUT: Tok := OutTok(0, 0)

  /** What the two post when they are marked done. */
  const CHECKS: seq<Op> := [Post(1, InputCheck(0)), Post(0, OutputCheck(0))]

  function Busy(x: Block, mail: seq<Msg>, todo: seq<Op>): Block {
    x.(mail := mail, todo := todo)
  }

  /** The pair as block b sees it: x is b itself, with mailbox xm and work xt, o the other. */
  function St(b: nat, x: Block, xm: seq<Msg>, xt: seq<Op>, o: Block, om: seq<Msg>, ot: seq<Op>, m: Main): Sys {
    if b == 0 then Sys([Busy(x, xm, xt), Busy(o, om, ot)], m) else Sys([Busy(o, om, ot), Busy(x, xm, xt)], m)
  }

  lemma Turns(b: nat, x: Block, xm: seq<Msg>, xt: seq<Op>, o: Block, om: seq<Msg>, ot: seq<Op>, m: Main)
    requires b < 2
    ensures St(b, x, xm, xt, o, om, ot, m) == St(1 - b, o, om, ot, x, xm, xt, m)
  {
  }

  lemma Sends(b: nat, x: Block, xm: seq<Msg>, xt: seq<Op>, o: Block, om: seq<Msg>, ot: seq<Op>, p: nat, k: nat, xm': seq<Msg>)
    requires b < 2 && Reachable(PAIR, St(b, x, xm, xt, o, om, ot, Bcast(p, b, k))) && xm' == xm + [Top(p)]
    ensures Reachable(PAIR, St(b, x, xm', xt, o, om, ot, Bcast(p, b + 1, k)))
  {
    Steps(PAIR, St(b, x, xm, xt, o, om, ot, Bcast(p, b, k)), SendTop, St(b, x, xm', xt, o, om, ot, Bcast(p, b + 1, k)));
  }

  lemma Takes(b: nat, x: Block, xm: seq<Msg>, o: Block, om: seq<Msg>, ot: seq<Op>, m: Main, xm': seq<Msg>, xt': seq<Op>)
    requires b < 2 && Reachable(PAIR, St(b, x, xm, [], o, om, ot, m))
    requires xm != [] && xm == [xm[0]] + xm' && xt' == Handler(PAIR, b, xm[0])
    ensures Reachable(PAIR, St(b, x, xm', xt', o, om, ot, m))
  {
    hide Handler;
    hide Reachable;
    assert xm[1..] == xm';
    var s, s' := St(b, x, xm, [], o, om, ot, m), St(b, x, xm', xt', o, om, ot, m);
    if b == 0 {
      assert s.blocks[0] == Busy(x, xm, []) && Apply(PAIR, s, Take(b)).blocks == s'.blocks;
    } else {
      assert s.blocks[1] == Busy(x, xm, []) && Apply(PAIR, s, Take(b)).blocks == s'.blocks;
    }
    Steps(PAIR, St(b, x, xm, [], o, om, ot, m), Take(b), St(b, x, xm', xt', o, om, ot, m));
  }

  /** Posts and answers change nothing else in the block. */
  lemma Pops(s: Sys, b: nat, rest: seq<Op>)
    requires b < |s.blocks| && s.blocks[b].todo != [] && s.blocks[b].todo == [s.blocks[b].todo[0]] + rest
    requires s.blocks[b].todo[0].Post? || s.blocks[b].todo[0].Ack?
    ensures Allowed(PAIR, s, b, NOTHING)
    ensures var x := s.blocks[b];
      Local(PAIR, s, b, NOTHING) == x.(todo := rest, acked := x.acked + if x.todo[0].Ack? then 1 else 0)
  {
    assert s.blocks[b].todo[1..] == rest;
  }

  lemma Answers(b: nat, x: Block, xm: seq<Msg>, xt: seq<Op>, o: Block, om: seq<Msg>, ot: seq<Op>, p: nat, next: nat,
                k: nat, xt': seq<Op>)
    requires b < 2 && Reachable(PAIR, St(b, x, xm, xt, o, om, ot, Bcast(p, next, k))) && xt == [Ack] + xt' && k > 0
    ensures Reachable(PAIR, St(b, x.(acked := x.acked + 1), xm, xt', o, om, ot, Bcast(p, next, k - 1)))
  {
    var s, y := St(b, x, xm, xt, o, om, ot, Bcast(p, next, k)), x.(acked := x.acked + 1);
    var s' := St(b, y, xm, xt', o, om, ot, Bcast(p, next, k - 1));
    Pops(s, b, xt');
    hide Local;
    hide Allowed;
    hide Reachable;
    if b == 0 {
      assert s.blocks[0] == Busy(x, xm, xt) && Apply(PAIR, s, Exec(b, NOTHING)).blocks == s'.blocks;
    } else {
      assert s.blocks[1] == Busy(x, xm, xt) && Apply(PAIR, s, Exec(b, NOTHING)).blocks == s'.blocks;
    }
    Steps(PAIR, s, Exec(b, NOTHING), s');
  }

  lemma Delivers(s: Sys, b: nat, to: nat, msg: Msg, s': Sys)
    requires Reachable(PAIR, s) && b < 2 && |s.blocks| == 2 && s.blocks[b].todo != [] && s.blocks[b].todo[0] == Post(to, msg)
    requires to < 2 && |s'.blocks| == 2 && s'.main == s.main && Allowed(PAIR, s, b, NOTHING)
    requires forall d: nat :: d < 2 ==>
      s'.blocks[d] == if d == to then Mailed(Kept(s, b, Local(PAIR, s, b, NOTHING), d), msg)
                      else Kept(s, b, Local(PAIR, s, b, NOTHING), d)
    ensures Reachable(PAIR, s')
  {
    hide Local;
    hide Allowed;
    ExecEffect(PAIR, s, b, NOTHING);
    var z := Apply(PAIR, s, Exec(b, NOTHING));
    Steps(PAIR, s, Exec(b, NOTHING), z);
    hide Apply;
    hide Enabled;
    assert z.blocks == s'.blocks;
  }

  /** A message to the other block. */
  lemma Tells(b: nat, x: Block, xm: seq<Msg>, xt: seq<Op>, o: Block, om: seq<Msg>, ot: seq<Op>, m: Main,
              msg: Msg, xt': seq<Op>, om': seq<Msg>)
    requires b < 2 && Reachable(PAIR, St(b, x, xm, xt, o, om, ot, m))
    requires xt == [Post(1 - b, msg)] + xt' && om' == om + [msg]
    ensures Reachable(PAIR, St(b, x, xm, xt', o, om', ot, m))
  {
    var s, s' := St(b, x, xm, xt, o, om, ot, m), St(b, x, xm, xt', o, om', ot, m);
    Pops(s, b, xt');
    hide Local;
    hide Allowed;
    hide Reachable;
    if b == 0 {
      assert s.blocks[0] == Busy(x, xm, xt) && s.blocks[1] == Busy(o, om, ot);
    } else {
      assert s.blocks[1] == Busy(x, xm, xt) && s.blocks[0] == Busy(o, om, ot);
    }
    Delivers(s, b, 1 - b, msg, s');
  }

  /** A message to itself. */
  lemma Kicks(b: nat, x: Block, xm: seq<Msg>, xt: seq<Op>, o: Block, om: seq<Msg>, ot: seq<Op>, m: Main,
              msg: Msg, xt': seq<Op>, xm': seq<Msg>)
    requires b < 2 && Reachable(PAIR, St(b, x, xm, xt, o, om, ot, m))
    requires xt == [Post(b, msg)] + xt' && xm' == xm + [msg]
    ensures Reachable(PAIR, St(b, x, xm', xt', o, om, ot, m))
  {
    var s, s' := St(b, x, xm, xt, o, om, ot, m), St(b, x, xm', xt', o, om, ot, m);
    Pops(s, b, xt');
    hide Local;
    hide Allowed;
    hide Reachable;
    if b == 0 {
      assert s.blocks[0] == Busy(x, xm, xt) && s.blocks[1] == Busy(o, om, ot);
    } else {
      assert s.blocks[1] == Busy(x, xm, xt) && s.blocks[0] == Busy(o, om, ot);
    }
    Delivers(s, b, b, msg, s');
  }

  /** An operation on the block's own state. */
  lemma Does(b: nat, x: Block, xm: seq<Msg>, xt: seq<Op>, o: Block, om: seq<Msg>, ot: seq<Op>, m: Main,
             c: Choice, y: Block, xt': seq<Op>)
    requires b < 2 && Reachable(PAIR, St(b, x, xm, xt, o, om, ot, m)) && xt != [] && !xt[0].Post? && !xt[0].Ack?
    requires Allowed(PAIR, St(b, x, xm, xt, o, om, ot, m), b, c)
    requires Busy(y, xm, xt') == Local(PAIR, St(b, x, xm, xt, o, om, ot, m), b, c)
    ensures Reachable(PAIR, St(b, y, xm, xt', o, om, ot, m))
  {
    hide Local;
    hide Allowed;
    Steps(PAIR, St(b, x, xm, xt, o, om, ot, m), Exec(b, c), St(b, y, xm, xt', o, om, ot, m));
  }

  function Becomes(op: Op, x: Block): Block {
    match op
    case MakeTokens => x.(made := true, inputsDone := {}, outputsDone := {})
    case Keep(t) => x.(pool := x.pool + {t})
    case GoLive => x.(state := LIVE, revived := x.revived || x.state == DONE)
    case SetDone => x.(state := DONE)
    case ClearPool => x.(pool := {}, released := true)
    case _ => x
  }

  lemma Simple(s: Sys, b: nat, rest: seq<Op>)
    requires b < |s.blocks| && s.blocks[b].todo != [] && s.blocks[b].todo == [s.blocks[b].todo[0]] + rest
    requires s.blocks[b].todo[0] in {MakeTokens, Keep(TopTok), Keep(IN), Keep(OUT), GoLive, SetDone, ClearPool}
    ensures Allowed(PAIR, s, b, NOTHING)
    ensures Local(PAIR, s, b, NOTHING) == Becomes(s.blocks[b].todo[0], s.blocks[b]).(todo := rest)
  {
    assert s.blocks[b].todo[1..] == rest;
  }

  lemma Changes(b: nat, x: Block, xm: seq<Msg>, xt: seq<Op>, o: Block, om: seq<Msg>, ot: seq<Op>, m: Main, xt': seq<Op>)
    requires b < 2 && Reachable(PAIR, St(b, x, xm, xt, o, om, ot, m))
    requires xt != [] && xt == [xt[0]] + xt' && xt[0] in {MakeTokens, Keep(TopTok), Keep(IN), Keep(OUT), GoLive, SetDone, ClearPool}
    ensures Reachable(PAIR, St(b, Becomes(xt[0], x), xm, xt', o, om, ot, m))
  {
    var s := St(b, x, xm, xt, o, om, ot, m);
    assert s.blocks[b] == Busy(x, xm, xt);
    Simple(s, b, xt');
    hide Local;
    hide Allowed;
    hide Reachable;
    hide St;
    Does(b, x, xm, xt, o, om, ot, m, NOTHING, Becomes(xt[0], x), xt');
  }

  /** Work, or the test after an input check, may end in mark_done. */
  lemma Ends(b: nat, x: Block, xm: seq<Msg>, xt: seq<Op>, o: Block, om: seq<Msg>, ot: seq<Op>, m: Main, xt': seq<Op>)
    requires b < 2 && Reachable(PAIR, St(b, x, xm, xt, o, om, ot, m))
    requires xt != [] && (if xt[0] == Work then x.state == LIVE else xt[0] == Settle(0) && 0 in x.inputsDone)
    requires xt' == [MarkDone] + xt[1..]
    ensures Reachable(PAIR, St(b, x, xm, xt', o, om, ot, m))
  {
    hide Reachable;
    assert [] + [MarkDone] + xt[1..] == xt';
    Does(b, x, xm, xt, o, om, ot, m, Choice([], true), x, xt');
  }

  lemma Idles(b: nat, x: Block, xm: seq<Msg>, xt: seq<Op>, o: Block, om: seq<Msg>, ot: seq<Op>, m: Main, xt': seq<Op>)
    requires b < 2 && Reachable(PAIR, St(b, x, xm, xt, o, om, ot, m)) && xt == [Work] + xt'
    ensures Reachable(PAIR, St(b, x, xm, xt', o, om, ot, m))
  {
    hide Reachable;
    assert [] + [] + xt[1..] == xt';
    Does(b, x, xm, xt, o, om, ot, m, NOTHING, x, xt');
  }

  lemma Marks(b: nat, x: Block, xm: seq<Msg>, o: Block, om: seq<Msg>, ot: seq<Op>, m: Main)
    requires b < 2 && Reachable(PAIR, St(b, x, xm, [MarkDone], o, om, ot, m)) && x.state != DONE
    ensures Reachable(PAIR, St(b, x, xm, [SetDone, ClearPool, CHECKS[b]], o, om, ot, m))
  {
    hide Reachable;
    assert CheckPosts(PAIR, b) == [CHECKS[b]] by {
      assert PAIR.edges[1..] == [];
    }
    assert [] + [SetDone, ClearPool] + [CHECKS[b]] + [MarkDone][1..] == [SetDone, ClearPool, CHECKS[b]];
    Does(b, x, xm, [MarkDone], o, om, ot, m, NOTHING, x, [SetDone, ClearPool, CHECKS[b]]);
  }

  /** The second block finds its input token its own again. */
  lemma Finds(y: Block, ym: seq<Msg>, yt: seq<Op>, x: Block, xm: seq<Msg>, m: Main, yt': seq<Op>)
    requires Reachable(PAIR, St(1, y, ym, yt, x, xm, [], m)) && yt == [CheckIn(0)] + yt'
    requires y.made && IN !in y.pool && IN !in x.pool && TokenMsg(IN) !in xm && TokenMsg(IN) !in ym
    requires forall op :: op in yt' ==> !op.Post? && !op.Keep?
    ensures Reachable(PAIR, St(1, y.(inputsDone := y.inputsDone + {0}), ym, yt', x, xm, [], m))
  {
    hide Reachable;
    assert yt[1..] == yt';
    var s := St(1, y, ym, yt, x, xm, [], m);
    assert Unique(s, IN) by {
      assert forall op :: op in yt ==> op in yt' || op == CheckIn(0);
    }
    hide Unique;
    Does(1, y, ym, yt, x, xm, [], m, NOTHING, y.(inputsDone := y.inputsDone + {0}), yt');
  }

  lemma Proceeds(x: Block, xm: seq<Msg>, xt: seq<Op>, o: Block, om: seq<Msg>, ot: seq<Op>, p: nat)
    requires Reachable(PAIR, St(0, x, xm, xt, o, om, ot, Bcast(p, 2, 0))) && p <= ACTIVE
    ensures Reachable(PAIR, St(0, x, xm, xt, o, om, ot, if p == ACTIVE then Waiting else Bcast(p + 1, 0, 2)))
  {
    Steps(PAIR, St(0, x, xm, xt, o, om, ot, Bcast(p, 2, 0)), NextPhase,
          St(0, x, xm, xt, o, om, ot, if p == ACTIVE then Waiting else Bcast(p + 1, 0, 2)));
  }

  /** A broadcast that blocks only acknowledge. */
  lemma PlainRound(p: nat, x: Block, y: Block)
    requires Reachable(PAIR, St(0, x, [], [], y, [], [], Bcast(p, 0, 2))) && p in {THREADS, CONFIG, ALLOC}
    ensures Reachable(PAIR, St(0, x.(acked := x.acked + 1), [], [], y.(acked := y.acked + 1), [], [], Bcast(p + 1, 0, 2)))
  {
    assert Handler(PAIR, 0, Top(p)) == [Ack] && Handler(PAIR, 1, Top(p)) == [Ack];
    hide *;
    var x', y' := x.(acked := x.acked + 1), y.(acked := y.acked + 1);
    Sends(0, x, [], [], y, [], [], p, 2, [Top(p)]);
    Turns(0, x, [Top(p)], [], y, [], [], Bcast(p, 1, 2));
    Sends(1, y, [], [], x, [Top(p)], [], p, 2, [Top(p)]);
    Turns(0, x, [Top(p)], [], y, [Top(p)], [], Bcast(p, 2, 2));
    Takes(0, x, [Top(p)], y, [Top(p)], [], Bcast(p, 2, 2), [], [Ack]);
    Answers(0, x, [], [Ack], y, [Top(p)], [], p, 2, 2, []);
    Turns(0, x', [], [], y, [Top(p)], [], Bcast(p, 2, 1));
    Takes(1, y, [Top(p)], x', [], [], Bcast(p, 2, 1), [], [Ack]);
    Answers(1, y, [], [Ack], x', [], [], p, 2, 1, []);
    Turns(0, x', [], [], y', [], [], Bcast(p, 2, 0));
    Proceeds(x', [], [], y', [], [], p);
  }

  // ---------------------------------------------------------------- the run

  /** After the token broadcast. */
  function Joined(x: Block): Block {
    var y := Becomes(Keep(TopTok), Becomes(MakeTokens, x));
    y.(acked := y.acked + 1)
  }

  /** After the activation. */
  function Alive(x: Block): Block {
    var y := Becomes(GoLive, x);
    y.(acked := y.acked + 1)
  }

  /** After mark_done. */
  function Over(x: Block): Block {
    Becomes(ClearPool, Becomes(SetDone, x))
  }

  function Informed(x: Block): Block {
    x.(inputsDone := x.inputsDone + {0})
  }

  const TOLD0: seq<Op> := [MakeTokens, Post(1, TokenMsg(OUT)), Keep(TopTok), Ack]
  const TOLD1: seq<Op> := [MakeTokens, Post(0, TokenMsg(IN)), Keep(TopTok), Ack]
  const ALIVE0: seq<Op> := [GoLive, Ack, Post(0, Other)]
  const ALIVE1: seq<Op> := [GoLive, Ack, Post(1, Other)]

  lemma Handlers()
    ensures Handler(PAIR, 0, Top(TOKENS)) == TOLD0 && Handler(PAIR, 1, Top(TOKENS)) == TOLD1
    ensures Handler(PAIR, 0, Top(ACTIVE)) == ALIVE0 && Handler(PAIR, 1, Top(ACTIVE)) == ALIVE1
    ensures Handler(PAIR, 0, TokenMsg(IN)) == [Keep(IN)] && Handler(PAIR, 1, TokenMsg(OUT)) == [Keep(OUT)]
    ensures Handler(PAIR, 0, Other) == [Work] && Handler(PAIR, 1, InputCheck(0)) == [CheckIn(0), Work, Settle(0)]
  {
    assert PAIR.edges[1..] == [];
  }

  /** The first block makes and posts its token. */
  lemma TokenFirst(x: Block, y: Block)
    requires Reachable(PAIR, St(0, x, [], [], y, [], [], Bcast(TOKENS, 0, 2)))
    ensures Reachable(PAIR, St(0, Joined(x), [], [], y, [Top(TOKENS), TokenMsg(OUT)], [], Bcast(TOKENS, 2, 1)))
  {
    Handlers();
    var x1 := Becomes(MakeTokens, x);
    var x2 := Becomes(Keep(TopTok), x1);
    hide Reachable;
    hide St;
    hide Handler;
    hide Becomes;
    var t, b := [Top(TOKENS)], Bcast(TOKENS, 2, 2);
    var k1, k2 := [Post(1, TokenMsg(OUT)), Keep(TopTok), Ack], [Keep(TopTok), Ack];
    Sends(0, x, [], [], y, [], [], TOKENS, 2, t);
    Turns(0, x, t, [], y, [], [], Bcast(TOKENS, 1, 2));
    Sends(1, y, [], [], x, t, [], TOKENS, 2, t);
    Turns(0, x, t, [], y, t, [], b);
    Takes(0, x, t, y, t, [], b, [], TOLD0);
    Changes(0, x, [], TOLD0, y, t, [], b, k1);
    Tells(0, x1, [], k1, y, t, [], b, TokenMsg(OUT), k2, [Top(TOKENS), TokenMsg(OUT)]);
    Changes(0, x1, [], k2, y, [Top(TOKENS), TokenMsg(OUT)], [], b, [Ack]);
    Answers(0, x2, [], [Ack], y, [Top(TOKENS), TokenMsg(OUT)], [], TOKENS, 2, 2, []);
  }

  /** Then the second. */
  lemma TokenSecond(x: Block, y: Block)
    requires Reachable(PAIR, St(0, x, [], [], y, [Top(TOKENS), TokenMsg(OUT)], [], Bcast(TOKENS, 2, 1)))
    ensures Reachable(PAIR, St(0, x, [TokenMsg(IN)], [], Joined(y), [TokenMsg(OUT)], [], Bcast(TOKENS, 2, 0)))
  {
    Handlers();
    var y1 := Becomes(MakeTokens, y);
    var y2 := Becomes(Keep(TopTok), y1);
    hide Reachable;
    hide St;
    hide Handler;
    hide Becomes;
    var b, k := Bcast(TOKENS, 2, 1), [TokenMsg(OUT)];
    var k1, k2 := [Post(0, TokenMsg(IN)), Keep(TopTok), Ack], [Keep(TopTok), Ack];
    Turns(0, x, [], [], y, [Top(TOKENS), TokenMsg(OUT)], [], b);
    Takes(1, y, [Top(TOKENS), TokenMsg(OUT)], x, [], [], b, k, TOLD1);
    Changes(1, y, k, TOLD1, x, [], [], b, k1);
    Tells(1, y1, k, k1, x, [], [], b, TokenMsg(IN), k2, [TokenMsg(IN)]);
    Changes(1, y1, k, k2, x, [TokenMsg(IN)], [], b, [Ack]);
    Answers(1, y2, k, [Ack], x, [TokenMsg(IN)], [], TOKENS, 2, 1, []);
    Turns(0, x, [TokenMsg(IN)], [], Joined(y), k, [], Bcast(TOKENS, 2, 0));
  }

  /** Both keep what they were sent. */
  lemma TokenThird(x: Block, y: Block)
    requires Reachable(PAIR, St(0, x, [TokenMsg(IN)], [], y, [TokenMsg(OUT)], [], Bcast(TOKENS, 2, 0)))
    ensures Reachable(PAIR, St(0, Becomes(Keep(IN), x), [], [], Becomes(Keep(OUT), y), [], [], Bcast(CONFIG, 0, 2)))
  {
    Handlers();
    var x1, y1, b := Becomes(Keep(IN), x), Becomes(Keep(OUT), y), Bcast(TOKENS, 2, 0);
    hide Reachable;
    hide St;
    hide Handler;
    hide Becomes;
    Takes(0, x, [TokenMsg(IN)], y, [TokenMsg(OUT)], [], b, [], [Keep(IN)]);
    Changes(0, x, [], [Keep(IN)], y, [TokenMsg(OUT)], [], b, []);
    Turns(0, x1, [], [], y, [TokenMsg(OUT)], [], b);
    Takes(1, y, [TokenMsg(OUT)], x1, [], [], b, [], [Keep(OUT)]);
    Changes(1, y, [], [Keep(OUT)], x1, [], [], b, []);
    Turns(0, x1, [], [], y1, [], [], b);
    Proceeds(x1, [], [], y1, [], [], TOKENS);
  }

  /** The first block comes alive. */
  lemma FirstLives(x: Block, y: Block)
    requires Reachable(PAIR, St(0, x, [], [], y, [], [], Bcast(ACTIVE, 0, 2)))
    ensures Reachable(PAIR, St(0, Alive(x), [Other], [], y, [], [], Bcast(ACTIVE, 1, 1)))
  {
    Handlers();
    var x1 := Becomes(GoLive, x);
    hide Reachable;
    hide St;
    hide Handler;
    hide Becomes;
    var t := [Top(ACTIVE)];
    Sends(0, x, [], [], y, [], [], ACTIVE, 2, t);
    Takes(0, x, t, y, [], [], Bcast(ACTIVE, 1, 2), [], ALIVE0);
    Changes(0, x, [], ALIVE0, y, [], [], Bcast(ACTIVE, 1, 2), [Ack, Post(0, Other)]);
    Answers(0, x1, [], [Ack, Post(0, Other)], y, [], [], ACTIVE, 1, 2, [Post(0, Other)]);
    Kicks(0, Alive(x), [], [Post(0, Other)], y, [], [], Bcast(ACTIVE, 1, 1), Other, [], [Other]);
  }

  lemma FirstWorks(x: Block, y: Block)
    requires Reachable(PAIR, St(0, x, [Other], [], y, [], [], Bcast(ACTIVE, 1, 1))) && x.state == LIVE
    ensures Reachable(PAIR, St(0, x, [], [SetDone, ClearPool, Post(1, InputCheck(0))], y, [], [], Bcast(ACTIVE, 1, 1)))
  {
    Handlers();
    hide Reachable;
    hide St;
    hide Handler;
    Takes(0, x, [Other], y, [], [], Bcast(ACTIVE, 1, 1), [], [Work]);
    Ends(0, x, [], [Work], y, [], [], Bcast(ACTIVE, 1, 1), [MarkDone]);
    Marks(0, x, [], y, [], [], Bcast(ACTIVE, 1, 1));
  }

  /** It works once and declares itself done. */
  lemma FirstFinishes(x: Block, y: Block)
    requires Reachable(PAIR, St(0, x, [Other], [], y, [], [], Bcast(ACTIVE, 1, 1))) && x.state == LIVE
    ensures Reachable(PAIR, St(0, Over(x), [], [], y, [InputCheck(0)], [], Bcast(ACTIVE, 1, 1)))
  {
    var x1 := Becomes(SetDone, x);
    var b, d2 := Bcast(ACTIVE, 1, 1), [Post(1, InputCheck(0))];
    var d1 := [ClearPool, Post(1, InputCheck(0))];
    var d := [SetDone, ClearPool, Post(1, InputCheck(0))];
    hide Reachable;
    hide St;
    hide Handler;
    hide Becomes;
    FirstWorks(x, y);
    Changes(0, x, [], d, y, [], [], b, d1);
    Changes(0, x1, [], d1, y, [], [], b, d2);
    Tells(0, Over(x), [], d2, y, [], [], b, InputCheck(0), [], [InputCheck(0)]);
  }

  /** The second hears of it before its own activation, and is done. */
  lemma SecondFinishes(x: Block, y: Block)
    requires Reachable(PAIR, St(0, x, [], [], y, [InputCheck(0)], [], Bcast(ACTIVE, 1, 1)))
    requires y.made && y.state == INIT && IN !in y.pool && x.pool == {}
    ensures Reachable(PAIR, St(0, x, [OutputCheck(0)], [], Over(Informed(y)), [], [], Bcast(ACTIVE, 1, 1)))
  {
    Handlers();
    var y1 := Informed(y);
    var y2 := Becomes(SetDone, y1);
    hide Reachable;
    hide St;
    hide Handler;
    hide Becomes;
    var b, d := Bcast(ACTIVE, 1, 1), [SetDone, ClearPool, Post(0, OutputCheck(0))];
    Turns(0, x, [], [], y, [InputCheck(0)], [], b);
    Takes(1, y, [InputCheck(0)], x, [], [], b, [], [CheckIn(0), Work, Settle(0)]);
    Finds(y, [], [CheckIn(0), Work, Settle(0)], x, [], b, [Work, Settle(0)]);
    Idles(1, y1, [], [Work, Settle(0)], x, [], [], b, [Settle(0)]);
    Ends(1, y1, [], [Settle(0)], x, [], [], b, [MarkDone]);
    Marks(1, y1, [], x, [], [], b);
    Changes(1, y1, [], d, x, [], [], b, d[1..]);
    Changes(1, y2, [], d[1..], x, [], [], b, d[2..]);
    Tells(1, Over(y1), [], d[2..], x, [], [], b, OutputCheck(0), [], [OutputCheck(0)]);
    Turns(0, x, [OutputCheck(0)], [], Over(y1), [], [], b);
  }

  /** Its activation arrives all the same. */
  lemma SecondRevives(x: Block, xm: seq<Msg>, y: Block)
    requires Reachable(PAIR, St(0, x, xm, [], y, [], [], Bcast(ACTIVE, 1, 1)))
    ensures Reachable(PAIR, St(0, x, xm, [], Alive(y), [Other], [], Waiting))
  {
    Handlers();
    var y1 := Becomes(GoLive, y);
    hide Reachable;
    hide St;
    hide Handler;
    hide Becomes;
    var t, b := [Top(ACTIVE)], Bcast(ACTIVE, 2, 1);
    Turns(0, x, xm, [], y, [], [], Bcast(ACTIVE, 1, 1));
    Sends(1, y, [], [], x, xm, [], ACTIVE, 1, t);
    Takes(1, y, t, x, xm, [], b, [], ALIVE1);
    Changes(1, y, [], ALIVE1, x, xm, [], b, [Ack, Post(1, Other)]);
    Answers(1, y1, [], [Ack, Post(1, Other)], x, xm, [], ACTIVE, 2, 1, [Post(1, Other)]);
    Kicks(1, Alive(y), [], [Post(1, Other)], x, xm, [], Bcast(ACTIVE, 2, 0), Other, [], [Other]);
    Turns(0, x, xm, [], Alive(y), [Other], [], Bcast(ACTIVE, 2, 0));
    Proceeds(x, xm, [], Alive(y), [Other], [], ACTIVE);
  }

  /** start() up to its last broadcast. */
  lemma StartsUp(s: Sys) returns (x: Block, y: Block)
    requires Initial(PAIR, s)
    ensures Reachable(PAIR, St(0, x, [], [], y, [], [], Bcast(ACTIVE, 0, 2)))
    ensures x == FRESH.(made := true, pool := {TopTok, IN}, acked := 4)
    ensures y == FRESH.(made := true, pool := {TopTok, OUT}, acked := 4)
  {
    Begins(PAIR, s);
    assert s == St(0, FRESH, [], [], FRESH, [], [], Bcast(THREADS, 0, 2)) by {
      assert s.blocks == [FRESH, FRESH];
    }
    var x1 := FRESH.(acked := 1);
    var x2, y2 := Becomes(Keep(IN), Joined(x1)), Becomes(Keep(OUT), Joined(x1));
    assert x2 == FRESH.(made := true, pool := {TopTok, IN}, acked := 2);
    assert y2 == FRESH.(made := true, pool := {TopTok, OUT}, acked := 2);
    hide Reachable;
    hide St;
    hide Handler;
    hide Becomes;
    hide Initial;
    PlainRound(THREADS, FRESH, FRESH);
    TokenFirst(x1, x1);
    TokenSecond(Joined(x1), x1);
    TokenThird(Joined(x1), Joined(x1));
    PlainRound(CONFIG, x2, y2);
    PlainRound(ALLOC, x2.(acked := 3), y2.(acked := 3));
    x, y := x2.(acked := 4), y2.(acked := 4);
  }

  /** The start-up barrier and the exactness of wait() both fail on this run: the second block
      ends up LIVE without a token, and wait() is free to return. */
  lemma LiveWithoutTokens(s: Sys)
    requires Initial(PAIR, s)
    ensures exists z :: (Reachable(PAIR, z) && |z.blocks| == 2
                         && z.blocks[1].state == LIVE && z.blocks[1].pool == {} && Enabled(PAIR, z, Leave))
  {
    var x, y := StartsUp(s);
    hide Reachable;
    FirstLives(x, y);
    FirstFinishes(Alive(x), y);
    SecondFinishes(Over(Alive(x)), y);
    SecondRevives(Over(Alive(x)), [OutputCheck(0)], Over(Informed(y)));
    Outcome(Over(Alive(x)), Alive(Over(Informed(y))));
  }

  lemma Outcome(x: Block, y: Block)
    requires Reachable(PAIR, St(0, x, [OutputCheck(0)], [], y, [Other], [], Waiting))
    requires x.pool == {} && y.pool == {} && y.state == LIVE
    ensures exists z :: (Reachable(PAIR, z) && |z.blocks| == 2
                         && z.blocks[1].state == LIVE && z.blocks[1].pool == {} && Enabled(PAIR, z, Leave))
  {
    hide Reachable;
    var z := St(0, x, [OutputCheck(0)], [], y, [Other], [], Waiting);
    assert z.blocks[1].state == LIVE && Enabled(PAIR, z, Leave);
  }
}
