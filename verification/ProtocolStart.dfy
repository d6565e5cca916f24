/** The first four broadcasts of start(): while they run every token reaches the pool of the
    block it is meant for, and when the fourth is answered nothing is still on its way. */
module ProtocolStart {
  import opened BlockStates
  import opened Protocol
  import opened ProtocolBarrier

  ghost predicate Blank(x: Block) {
    x.state == INIT && x.inputsDone == {} && x.outputsDone == {} && !x.released && !x.revived
  }

  ghost predicate YoungMsg(g: Graph, p: nat, b: nat, m: Msg) {
    m == Top(p) || m == Other || (m.TokenMsg? && Needs(g, b, m.tok))
  }

  ghost predicate YoungOp(g: Graph, p: nat, b: nat, op: Op) {
    match op
    case Ack => true
    case Work => true
    case MakeTokens => p == TOKENS
    case Keep(t) => Needs(g, b, t)
    case Post(d, m) => p == TOKENS && d < g.n && m.TokenMsg? && Needs(g, d, m.tok)
    case _ => false
  }

  /** The answer is a handler's last operation. */
  ghost predicate YoungTodo(g: Graph, p: nat, b: nat, todo: seq<Op>) {
    && (forall op :: op in todo ==> YoungOp(g, p, b, op))
    && (forall k :: 0 <= k < |todo| - 1 ==> todo[k] != Ack)
    && (forall op :: op in todo && (op == MakeTokens || op.Post?) ==> todo[|todo| - 1] == Ack)
  }

  ghost predicate Started(x: Block) {
    x.made || MakeTokens in x.todo
  }

  ghost predicate Drained(x: Block) {
    forall t :: TokenMsg(t) !in x.mail && Keep(t) !in x.todo
  }

  /** What the broadcasts answered so far guarantee. */
  ghost predicate Phased(p: nat, x: Block) {
    && ((p == TOKENS && Ack in x.todo) || x.acked >= CONFIG ==> Started(x))
    && (p >= CONFIG ==> forall i, j :: 0 <= i < j < |x.mail| && x.mail[i] == Top(p) ==> !x.mail[j].TokenMsg?)
    && (p >= CONFIG && (Ack in x.todo || x.acked > CONFIG) ==> Drained(x))
  }

  ghost predicate Young(g: Graph, p: nat, b: nat, x: Block) {
    && Blank(x)
    && (forall m :: m in x.mail ==> YoungMsg(g, p, b, m))
    && YoungTodo(g, p, b, x.todo)
    && (forall t :: t in x.pool ==> Needs(g, b, t))
    && Phased(p, x)
  }

  /** The block that makes token t for block b. */
  function Owner(b: nat, t: Tok): nat {
    match t
    case TopTok => b
    case InTok(c, _) => c
    case OutTok(c, _) => c
  }

  /** Token t is in b's pool or on its way there. */
  ghost predicate At(s: Sys, b: nat, t: Tok) {
    && b < |s.blocks| && Owner(b, t) < |s.blocks|
    && (t in s.blocks[b].pool || TokenMsg(t) in s.blocks[b].mail || Keep(t) in s.blocks[b].todo
        || Post(b, TokenMsg(t)) in s.blocks[Owner(b, t)].todo)
  }

  ghost predicate Located(g: Graph, s: Sys) {
    forall b: nat, t | b < |s.blocks| && Needs(g, b, t) && Owner(b, t) < |s.blocks| && Started(s.blocks[Owner(b, t)])
      :: At(s, b, t)
  }

  ghost predicate Starting(g: Graph, s: Sys) {
    && Barrier(g, s) && s.main.Bcast? && s.main.phase <= ALLOC
    && (forall b :: 0 <= b < g.n ==> Young(g, s.main.phase, b, s.blocks[b]))
    && Located(g, s)
  }

  // ---------------------------------------------------------------- one block

  lemma YoungTail(g: Graph, p: nat, b: nat, todo: seq<Op>)
    requires YoungTodo(g, p, b, todo) && todo != []
    ensures YoungTodo(g, p, b, todo[1..])
    ensures todo[0] == Ack ==> todo == [Ack]
  {
    hide YoungOp;
    forall op | op in todo[1..] ensures op in todo {
    }
  }

  /** What an operation of a starting block does to it. */
  lemma YoungLocal(g: Graph, s: Sys, b: nat, c: Choice)
    requires b < |s.blocks| && s.blocks[b].todo != [] && Allowed(g, s, b, c)
    requires s.blocks[b].state == INIT && s.blocks[b].inputsDone == {} && s.blocks[b].outputsDone == {}
    requires exists p :: YoungOp(g, p, b, s.blocks[b].todo[0])
    ensures var x, op := s.blocks[b], s.blocks[b].todo[0];
      Local(g, s, b, c) == x.(todo := x.todo[1..], made := x.made || op == MakeTokens,
                              pool := if op.Keep? then x.pool + {op.tok} else x.pool,
                              acked := x.acked + if op == Ack then 1 else 0)
  {
    assert [] + s.blocks[b].todo[1..] == s.blocks[b].todo[1..];
    assert [] + [] + s.blocks[b].todo[1..] == s.blocks[b].todo[1..];
  }

  lemma YoungExec(g: Graph, p: nat, b: nat, sent: bool, x: Block, y: Block)
    requires Young(g, p, b, x) && Answering(p, sent, x) && x.todo != []
    requires var op := x.todo[0];
      y == x.(todo := x.todo[1..], made := x.made || op == MakeTokens,
              pool := if op.Keep? then x.pool + {op.tok} else x.pool,
              acked := x.acked + if op == Ack then 1 else 0)
    ensures Young(g, p, b, y)
  {
    var op := x.todo[0];
    YoungTail(g, p, b, x.todo);
    assert op in x.todo && YoungOp(g, p, b, op);
    CountHead(x.todo, Ack);
    assert forall o :: o in y.todo ==> o in x.todo;
    assert MakeTokens in x.todo ==> MakeTokens in y.todo || op == MakeTokens;
    hide YoungTodo;
    hide Needs;
  }

  lemma YoungMailed(g: Graph, p: nat, b: nat, x: Block, m: Msg)
    requires Young(g, p, b, x) && YoungMsg(g, p, b, m) && (m.TokenMsg? ==> p < CONFIG)
    ensures Young(g, p, b, Mailed(x, m))
  {
    hide YoungTodo;
    hide Needs;
  }

  lemma YoungHandler(g: Graph, p: nat, b: nat, m: Msg)
    requires WellFormed(g) && p <= ALLOC && b < g.n && YoungMsg(g, p, b, m)
    ensures YoungTodo(g, p, b, Handler(g, b, m))
    ensures p == TOKENS && m.Top? ==> MakeTokens in Handler(g, b, m)
    ensures p != TOKENS && m.Top? ==> Handler(g, b, m) == [Ack]
  {
    if m == Top(TOKENS) {
      var posts := TokenPosts(g, b);
      assert Handler(g, b, m) == [MakeTokens] + posts + [Keep(TopTok), Ack];
      forall op | op in posts ensures YoungOp(g, p, b, op) && op.Post? {
        TokenPostsAre(g, b, op);
      }
      AckEnds(posts);
    }
  }

  lemma AckEnds(posts: seq<Op>)
    requires Ack !in posts
    ensures var todo := [MakeTokens] + posts + [Keep(TopTok), Ack]; forall k :: 0 <= k < |todo| - 1 ==> todo[k] != Ack
  {
    var todo := [MakeTokens] + posts + [Keep(TopTok), Ack];
    forall k | 0 < k <= |posts| ensures todo[k] != Ack {
      assert todo[k] == posts[k - 1];
    }
  }

  lemma YoungTake(g: Graph, p: nat, b: nat, x: Block)
    requires WellFormed(g) && p <= ALLOC && b < g.n
    requires Young(g, p, b, x) && x.todo == [] && x.mail != []
    ensures Young(g, p, b, x.(mail := x.mail[1..], todo := Handler(g, b, x.mail[0])))
  {
    var m := x.mail[0];
    assert m in x.mail;
    YoungHandler(g, p, b, m);
    if p >= CONFIG && m != Top(p) {
      assert Ack !in Handler(g, b, m);
    }
    forall k | k in x.mail[1..] ensures k in x.mail {
    }
    hide YoungTodo;
    hide Needs;
    if x.acked > CONFIG && p >= CONFIG {
      assert !m.TokenMsg?;
    }
  }

  lemma YoungNext(g: Graph, p: nat, b: nat, x: Block)
    requires Young(g, p, b, x) && p < ALLOC && x.acked == p + 1 && Top(p) !in x.mail && Ack !in x.todo
    ensures Young(g, p + 1, b, x)
  {
    forall m | m in x.mail ensures YoungMsg(g, p + 1, b, m) && !m.Top? {
      assert YoungMsg(g, p, b, m);
    }
    forall op | op in x.todo ensures YoungOp(g, p + 1, b, op) {
      assert YoungOp(g, p, b, op);
      assert x.todo[|x.todo| - 1] in x.todo;
    }
    hide Needs;
  }

  // ---------------------------------------------------------------- where the tokens are

  lemma LocatedExecuted(g: Graph, s: Sys, b: nat, op: Op, y: Block, s': Sys)
    requires Located(g, s) && Executed(s, b, op, y, s')
    requires var x := s.blocks[b];
      && y.todo == x.todo[1..] && y.mail == x.mail && y.made == (x.made || op == MakeTokens)
      && y.pool == (if op.Keep? then x.pool + {op.tok} else x.pool)
    ensures Located(g, s')
  {
    hide Needs;
    forall d: nat, t | d < |s'.blocks| && Needs(g, d, t) && Owner(d, t) < |s'.blocks| && Started(s'.blocks[Owner(d, t)])
      ensures At(s', d, t)
    {
      var c := Owner(d, t);
      LocatedOne(s, b, op, y, s', c, d, t);
    }
  }

  lemma LocatedOne(s: Sys, b: nat, op: Op, y: Block, s': Sys, c: nat, d: nat, t: Tok)
    requires Executed(s, b, op, y, s') && c < |s.blocks| && d < |s.blocks| && c == Owner(d, t)
    requires var x := s.blocks[b];
      && y.todo == x.todo[1..] && y.mail == x.mail && y.made == (x.made || op == MakeTokens)
      && y.pool == (if op.Keep? then x.pool + {op.tok} else x.pool)
    requires Started(s'.blocks[c]) && (Started(s.blocks[c]) ==> At(s, d, t))
    ensures At(s', d, t)
  {
    var x := s.blocks[b];
    assert forall o :: o in x.todo ==> o in y.todo || o == op;
    assert forall o :: o in y.todo ==> o in x.todo;
    assert op in x.todo;
    assert Started(s.blocks[c]);
  }

  lemma LocatedTake(g: Graph, s: Sys, b: nat)
    requires WellFormed(g) && |s.blocks| == g.n && Located(g, s) && Enabled(g, s, Take(b))
    requires forall m :: m in s.blocks[b].mail && m.Top? ==> m.phase <= ALLOC
    ensures Located(g, Apply(g, s, Take(b)))
  {
    var s' := Apply(g, s, Take(b));
    var x, y := s.blocks[b], s'.blocks[b];
    var m := x.mail[0];
    assert forall k :: k in x.mail ==> k in y.mail || k == m;
    TakenTokens(g, b, m);
    hide Handler;
    forall d: nat, t | d < |s'.blocks| && Needs(g, d, t) && Owner(d, t) < |s'.blocks| && Started(s'.blocks[Owner(d, t)])
      ensures At(s', d, t)
    {
      hide Needs;
      if m == Top(TOKENS) && Owner(d, t) == b {
        assert t.TopTok? || Post(d, TokenMsg(t)) in y.todo;
      } else {
        assert Started(s.blocks[Owner(d, t)]);
        assert At(s, d, t);
      }
    }
  }

  lemma TakenTokens(g: Graph, b: nat, m: Msg)
    ensures m == Top(TOKENS) ==> Keep(TopTok) in Handler(g, b, m)
    ensures m == Top(TOKENS) ==>
      forall d: nat, t :: Needs(g, d, t) && !t.TopTok? && Owner(d, t) == b ==> Post(d, TokenMsg(t)) in Handler(g, b, m)
    ensures m.TokenMsg? ==> Keep(m.tok) in Handler(g, b, m)
    ensures m != Top(TOKENS) ==> MakeTokens !in Handler(g, b, m)
  {
    if m == Top(TOKENS) {
      var posts := TokenPosts(g, b);
      assert Handler(g, b, Top(TOKENS)) == [MakeTokens] + posts + [Keep(TopTok), Ack];
      forall d: nat, t | Needs(g, d, t) && !t.TopTok? && Owner(d, t) == b ensures Post(d, TokenMsg(t)) in posts {
        TokenPostsAre(g, b, Post(d, TokenMsg(t)));
      }
    }
  }

  // ---------------------------------------------------------------- every step

  lemma StartingExec(g: Graph, s: Sys, b: nat, c: Choice)
    requires Starting(g, s) && Enabled(g, s, Exec(b, c))
    ensures Starting(g, Apply(g, s, Exec(b, c)))
  {
    BarrierKeeps(g, s, Exec(b, c));
    ExecEffect(g, s, b, c);
    var p, x, y, s' := s.main.phase, s.blocks[b], Local(g, s, b, c), Apply(g, s, Exec(b, c));
    var op := x.todo[0];
    assert Young(g, p, b, x);
    assert op in x.todo && YoungOp(g, p, b, op);
    YoungLocal(g, s, b, c);
    assert Answering(Phase(s.main), SentTo(s.main, b), x);
    YoungExec(g, p, b, SentTo(s.main, b), x, y);
    LocatedExecuted(g, s, b, op, y, s');
    hide *;
    StartingExecuted(g, s, b, op, y, s');
  }

  lemma StartingExecuted(g: Graph, s: Sys, b: nat, op: Op, y: Block, s': Sys)
    requires Starting(g, s) && Barrier(g, s') && Executed(s, b, op, y, s') && Located(g, s')
    requires Young(g, s.main.phase, b, y) && YoungOp(g, s.main.phase, b, op)
    ensures Starting(g, s')
  {
    hide Young;
    hide Located;
    forall d: nat | d < g.n ensures Young(g, s'.main.phase, d, s'.blocks[d]) {
      if op.Post? && d == op.to {
        YoungMailed(g, s.main.phase, d, Kept(s, b, y, d), op.msg);
      }
    }
  }

  lemma StartingTake(g: Graph, s: Sys, b: nat)
    requires Starting(g, s) && Enabled(g, s, Take(b))
    ensures Starting(g, Apply(g, s, Take(b)))
  {
    var s' := Apply(g, s, Take(b));
    BarrierKeeps(g, s, Take(b));
    YoungTake(g, s.main.phase, b, s.blocks[b]);
    forall m | m in s.blocks[b].mail && m.Top? ensures m.phase <= ALLOC {
      assert YoungMsg(g, s.main.phase, b, m);
    }
    LocatedTake(g, s, b);
    hide Young;
    hide Located;
    hide Handler;
  }

  lemma LocatedMailed(g: Graph, s: Sys, s': Sys)
    requires Located(g, s) && |s'.blocks| == |s.blocks|
    requires forall d :: 0 <= d < |s.blocks| ==>
      s'.blocks[d] == s.blocks[d] || exists m :: s'.blocks[d] == Mailed(s.blocks[d], m)
    ensures Located(g, s')
  {
    hide Needs;
    forall d: nat, t | d < |s'.blocks| && Needs(g, d, t) && Owner(d, t) < |s'.blocks| && Started(s'.blocks[Owner(d, t)])
      ensures At(s', d, t)
    {
      assert Started(s.blocks[Owner(d, t)]);
      assert At(s, d, t);
    }
  }

  lemma StartingMailed(g: Graph, s: Sys, t: Step)
    requires Starting(g, s) && Enabled(g, s, t) && (t.SendTop? || t.Noise?)
    ensures Starting(g, Apply(g, s, t))
  {
    hide Located;
    hide Young;
    hide Barrier;
    var s' := Apply(g, s, t);
    BarrierKeeps(g, s, t);
    BarrierShape(g, s);
    var b := if t.SendTop? then s.main.next else t.b;
    var m := if t.SendTop? then Top(s.main.phase) else Other;
    assert YoungMsg(g, s.main.phase, b, m);
    assert forall d: nat :: d < g.n ==> s'.blocks[d] == if d == b then Mailed(s.blocks[d], m) else s.blocks[d];
    hide Apply;
    hide Enabled;
    LocatedMailed(g, s, s');
    YoungMailed(g, s.main.phase, b, s.blocks[b], m);
  }

  lemma StartingNext(g: Graph, s: Sys)
    requires Starting(g, s) && Enabled(g, s, NextPhase) && s.main.phase < ALLOC
    ensures Starting(g, Apply(g, s, NextPhase))
  {
    BarrierKeeps(g, s, NextPhase);
    forall b: nat | b < g.n ensures Young(g, s.main.phase + 1, b, s.blocks[b]) {
      PhaseOver(g, s, b);
      YoungNext(g, s.main.phase, b, s.blocks[b]);
    }
    hide Young;
  }

  /** Until the last broadcast begins. */
  lemma StartingKeeps(g: Graph, s: Sys, t: Step)
    requires Starting(g, s) && Enabled(g, s, t) && !(t.NextPhase? && s.main.phase == ALLOC)
    ensures Starting(g, Apply(g, s, t))
  {
    match t {
      case Exec(b, c) => StartingExec(g, s, b, c);
      case Take(b) => StartingTake(g, s, b);
      case NextPhase => StartingNext(g, s);
      case _ => StartingMailed(g, s, t);
    }
  }

  lemma StartingStarts(g: Graph, s: Sys)
    requires Initial(g, s)
    ensures Starting(g, s)
  {
    BarrierStarts(g, s);
  }

  /** When the fourth broadcast is answered, every pool is complete and no token is in
      transit. */
  lemma TokensDelivered(g: Graph, s: Sys, b: nat)
    requires Starting(g, s) && Enabled(g, s, NextPhase) && s.main.phase == ALLOC && b < g.n
    ensures var x := s.blocks[b];
      && Blank(x) && x.made && HoldsAll(g, b, x.pool)
      && (forall m :: m in x.mail ==> m == Other) && (forall op :: op in x.todo ==> op == Work)
  {
    var x := s.blocks[b];
    assert Young(g, ALLOC, b, x);
    PhaseOver(g, s, b);
    forall m | m in x.mail ensures m == Other {
      assert YoungMsg(g, ALLOC, b, m);
    }
    forall op | op in x.todo ensures op == Work {
      assert YoungOp(g, ALLOC, b, op);
    }
    forall t | Needs(g, b, t) ensures t in x.pool {
      var c := Owner(b, t);
      assert c < g.n;
      PhaseOver(g, s, c);
      assert Young(g, ALLOC, c, s.blocks[c]);
      assert forall op :: op in s.blocks[c].todo ==> YoungOp(g, ALLOC, c, op);
      assert At(s, b, t);
    }
  }
}
