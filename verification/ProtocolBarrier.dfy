/** The broadcasts of start(): each is answered exactly once by every block, and the next one
    is sent only when all answers are in. */
module ProtocolBarrier {
  import opened BlockStates
  import opened Protocol

  // ---------------------------------------------------------------- postings

  lemma {:induction false} UpstreamIs(edges: seq<Edge>, b: nat, mk: Edge -> Msg, op: Op)
    ensures op in Upstream(edges, b, mk) <==> exists e :: e in edges && e.dst == b && op == Post(e.src, mk(e))
  {
    if edges != [] {
      UpstreamIs(edges[1..], b, mk, op);
      assert edges == [edges[0]] + edges[1..];
      assert edges[0] in edges;
    }
  }

  lemma {:induction false} DownstreamIs(edges: seq<Edge>, b: nat, mk: Edge -> Msg, op: Op)
    ensures op in Downstream(edges, b, mk) <==> exists e :: e in edges && e.src == b && op == Post(e.dst, mk(e))
  {
    if edges != [] {
      DownstreamIs(edges[1..], b, mk, op);
      assert edges == [edges[0]] + edges[1..];
      assert edges[0] in edges;
    }
  }

  /** Block b's token messages are exactly: to every block that needs one of b's tokens, that
      token. */
  lemma TokenPostsAre(g: Graph, b: nat, op: Op)
    ensures op in TokenPosts(g, b)
       <==> op.Post? && op.msg.TokenMsg? && !op.msg.tok.TopTok? && op.msg.tok.b == b && Needs(g, op.to, op.msg.tok)
  {
    UpstreamIs(g.edges, b, (e: Edge) => TokenMsg(InTok(e.dst, e.inp)), op);
    DownstreamIs(g.edges, b, (e: Edge) => TokenMsg(OutTok(e.src, e.out)), op);
  }

  /** The messages mark_done posts are exactly: to every producer for one of b's inputs, a
      check of that producer's output, and to every consumer a check of that input. */
  lemma CheckPostsAre(g: Graph, b: nat, op: Op)
    ensures op in CheckPosts(g, b)
       <==> ((exists e :: e in g.edges && e.dst == b && op == Post(e.src, OutputCheck(e.out)))
          || (exists e :: e in g.edges && e.src == b && op == Post(e.dst, InputCheck(e.inp))))
  {
    UpstreamIs(g.edges, b, (e: Edge) => OutputCheck(e.out), op);
    DownstreamIs(g.edges, b, (e: Edge) => InputCheck(e.inp), op);
  }

  // ---------------------------------------------------------------- what an operation leaves to do

  /** What executing its next operation puts in front of the rest of block b's work. */
  ghost function Extra(g: Graph, s: Sys, b: nat, c: Choice): seq<Op>
    requires b < |s.blocks| && s.blocks[b].todo != []
  {
    var x := s.blocks[b];
    match x.todo[0]
    case CheckOut(o) => if AllOutputsDone(g, b, Local(g, s, b, c).outputsDone) then [MarkDone] else []
    case Work => c.data + (if c.finish then [MarkDone] else [])
    case Settle(_) => if c.finish then [MarkDone] else []
    case MarkDone => if x.state == DONE then [] else c.data + [SetDone, ClearPool] + CheckPosts(g, b)
    case _ => []
  }

  /** Operations that handlers add in mid-course: posted buffers and checks, and the parts of
      mark_done. */
  ghost predicate Late(g: Graph, op: Op) {
    match op
    case Post(d, m) => d < g.n && (m.Data? || m.InputCheck? || m.OutputCheck?)
    case MarkDone => true
    case SetDone => true
    case ClearPool => true
    case _ => false
  }

  lemma LocalTodo(g: Graph, s: Sys, b: nat, c: Choice)
    requires WellFormed(g) && b < |s.blocks| && s.blocks[b].todo != [] && Allowed(g, s, b, c)
    ensures Local(g, s, b, c).todo == Extra(g, s, b, c) + s.blocks[b].todo[1..]
    ensures Local(g, s, b, c).mail == s.blocks[b].mail
    ensures Local(g, s, b, c).acked == s.blocks[b].acked + (if s.blocks[b].todo[0] == Ack then 1 else 0)
    ensures forall op :: op in Extra(g, s, b, c) ==> Late(g, op)
  {
    hide Late;
    hide CheckPosts;
    hide AllOutputsDone;
    hide Unique;
    hide DataPosts;
    hide WellFormed;
    ExtraLate(g, s, b, c);
  }

  lemma ExtraLate(g: Graph, s: Sys, b: nat, c: Choice)
    requires WellFormed(g) && b < |s.blocks| && s.blocks[b].todo != [] && Allowed(g, s, b, c)
    ensures forall op :: op in Extra(g, s, b, c) ==> Late(g, op)
  {
    forall op | op in Extra(g, s, b, c) ensures Late(g, op) {
      CheckPostsAre(g, b, op);
    }
    hide AllOutputsDone;
    hide Local;
  }

  lemma CountHead<T>(s: seq<T>, x: T)
    requires s != []
    ensures multiset(s)[x] == multiset(s[1..])[x] + (if s[0] == x then 1 else 0)
  {
    assert s == [s[0]] + s[1..];
  }

  function Kept(s: Sys, b: nat, y: Block, d: nat): Block
    requires d < |s.blocks|
  {
    if d == b then y else s.blocks[d]
  }

  /** From s to s' block b becomes y by executing op: at most one block gets one message, and
      only acknowledgements reach the top block. */
  ghost predicate Executed(s: Sys, b: nat, op: Op, y: Block, s': Sys) {
    && b < |s.blocks| && |s'.blocks| == |s.blocks|
    && s.blocks[b].todo != [] && op == s.blocks[b].todo[0]
    && (op == Ack ==> s.main.Bcast? && s.main.outstanding > 0)
    && s'.main == (if op == Ack then s.main.(outstanding := s.main.outstanding - 1) else s.main)
    && (op.Post? ==> op.to < |s.blocks|)
    && forall d :: 0 <= d < |s.blocks| ==>
         s'.blocks[d] == if op.Post? && d == op.to then Mailed(Kept(s, b, y, d), op.msg) else Kept(s, b, y, d)
  }

  lemma ExecEffect(g: Graph, s: Sys, b: nat, c: Choice)
    requires Enabled(g, s, Exec(b, c))
    ensures b < |s.blocks| && s.blocks[b].todo != [] && Allowed(g, s, b, c)
    ensures Executed(s, b, s.blocks[b].todo[0], Local(g, s, b, c), Apply(g, s, Exec(b, c)))
  {
    hide Local;
    hide Allowed;
  }

  // ---------------------------------------------------------------- the barrier

  /** The broadcast under way; one past the last when start() has returned. */
  function Phase(m: Main): nat {
    if m.Bcast? then m.phase else ACTIVE + 1
  }

  predicate SentTo(m: Main, b: nat) {
    m.Bcast? && b < m.next
  }

  /** Block x has answered all earlier broadcasts; the current one, if sent, is in its
      mailbox, or about to be answered, or answered, and only one of these. */
  ghost predicate Answering(p: nat, sent: bool, x: Block) {
    && p <= x.acked
    && x.acked + multiset(x.mail)[Top(p)] + multiset(x.todo)[Ack] == p + (if sent then 1 else 0)
    && (forall q :: Top(q) in x.mail ==> q == p)
    && (forall d, m :: Post(d, m) in x.todo ==> !m.Top?)
  }

  /** The blocks whose answer is missing. */
  ghost function Owing(s: Sys): set<nat> {
    set b: nat | b < |s.blocks| && s.blocks[b].acked == Phase(s.main)
  }

  ghost predicate Barrier(g: Graph, s: Sys) {
    && WellFormed(g) && |s.blocks| == g.n
    && (s.main.Bcast? ==> s.main.phase <= ACTIVE && s.main.next <= g.n && s.main.outstanding == |Owing(s)|)
    && forall b :: 0 <= b < g.n ==> Answering(Phase(s.main), SentTo(s.main, b), s.blocks[b])
  }

  lemma BarrierShape(g: Graph, s: Sys)
    requires Barrier(g, s)
    ensures WellFormed(g) && |s.blocks| == g.n
  {
  }

  ghost function Below(k: nat): (r: set<nat>)
    ensures |r| == k && forall b: nat :: b in r <==> b < k
  {
    if k == 0 then {} else Below(k - 1) + {k - 1}
  }

  /** Everybody owes the answer to a broadcast that has just begun. */
  lemma OwingFull(s: Sys)
    requires forall b :: 0 <= b < |s.blocks| ==> s.blocks[b].acked == Phase(s.main)
    ensures |Owing(s)| == |s.blocks|
  {
    assert Owing(s) == Below(|s.blocks|);
  }

  /** A broadcast is over only when every block has answered it. */
  lemma PhaseOver(g: Graph, s: Sys, b: nat)
    requires Barrier(g, s) && Enabled(g, s, NextPhase) && b < g.n
    ensures s.blocks[b].acked == s.main.phase + 1
    ensures Top(s.main.phase) !in s.blocks[b].mail && Ack !in s.blocks[b].todo
  {
    assert b !in Owing(s);
    var x := s.blocks[b];
    assert Answering(s.main.phase, true, x);
    assert x.acked != s.main.phase;
  }

  /** No answer comes that start() is not waiting for. */
  lemma AckExpected(g: Graph, s: Sys, b: nat)
    requires Barrier(g, s) && b < g.n && Ack in s.blocks[b].todo
    ensures s.main.Bcast? && s.main.outstanding > 0
  {
    assert Answering(Phase(s.main), SentTo(s.main, b), s.blocks[b]);
    assert multiset(s.blocks[b].todo)[Ack] > 0;
    assert b in Owing(s);
  }

  /** The same block with one more message that is not a broadcast. */
  lemma MailedAnswering(p: nat, sent: bool, x: Block, m: Msg)
    requires Answering(p, sent, x) && !m.Top?
    ensures Answering(p, sent, Mailed(x, m))
  {
    assert multiset(x.mail + [m])[Top(p)] == multiset(x.mail)[Top(p)];
  }

  lemma ToppedAnswering(p: nat, x: Block)
    requires Answering(p, false, x)
    ensures Answering(p, true, Mailed(x, Top(p)))
  {
    assert multiset(x.mail + [Top(p)])[Top(p)] == multiset(x.mail)[Top(p)] + 1;
  }

  /** The block's own side of executing an operation. */
  lemma DoneAnswering(g: Graph, p: nat, sent: bool, x: Block, y: Block, more: seq<Op>)
    requires Answering(p, sent, x) && x.todo != [] && y.todo == more + x.todo[1..] && y.mail == x.mail
    requires y.acked == x.acked + (if x.todo[0] == Ack then 1 else 0)
    requires forall op :: op in more ==> Late(g, op)
    ensures Answering(p, sent, y)
  {
    CountHead(x.todo, Ack);
    assert Ack !in more;
    assert multiset(y.todo)[Ack] == multiset(more)[Ack] + multiset(x.todo[1..])[Ack];
    forall d, m | Post(d, m) in y.todo ensures !m.Top? {
      if Post(d, m) in more {
        assert Late(g, Post(d, m));
      } else {
        assert Post(d, m) in x.todo;
      }
    }
  }

  lemma LocalAnswering(g: Graph, s: Sys, b: nat, c: Choice)
    requires Barrier(g, s) && b < g.n && s.blocks[b].todo != [] && Allowed(g, s, b, c)
    ensures Answering(Phase(s.main), SentTo(s.main, b), Local(g, s, b, c))
  {
    LocalTodo(g, s, b, c);
    hide Local;
    hide Extra;
    hide Allowed;
    hide Late;
    assert Answering(Phase(s.main), SentTo(s.main, b), s.blocks[b]);
    hide Answering;
    DoneAnswering(g, Phase(s.main), SentTo(s.main, b), s.blocks[b], Local(g, s, b, c), Extra(g, s, b, c));
  }

  lemma TokenHandler(g: Graph, b: nat)
    ensures multiset(Handler(g, b, Top(TOKENS)))[Ack] == 1
    ensures forall d, k :: Post(d, k) in Handler(g, b, Top(TOKENS)) ==> k.TokenMsg?
  {
    var posts := TokenPosts(g, b);
    assert Handler(g, b, Top(TOKENS)) == [MakeTokens] + posts + [Keep(TopTok), Ack];
    forall op | op in posts ensures op.Post? && op.msg.TokenMsg? {
      TokenPostsAre(g, b, op);
    }
    hide *;
    OneAck(posts);
  }

  lemma ShortHandler(g: Graph, b: nat, m: Msg)
    requires m != Top(TOKENS)
    ensures m == Top(ACTIVE) ==> Handler(g, b, m) == [GoLive, Ack, Post(b, Other)]
    ensures m.Top? && m != Top(ACTIVE) ==> Handler(g, b, m) == [Ack]
    ensures !m.Top? ==> Ack !in Handler(g, b, m)
    ensures m != Top(ACTIVE) ==> forall op :: op in Handler(g, b, m) ==> !op.Post?
  {
  }

  /** A handler answers exactly the broadcasts, and posts none. */
  lemma HandlerAnswers(g: Graph, b: nat, m: Msg)
    ensures multiset(Handler(g, b, m))[Ack] == (if m.Top? then 1 else 0)
    ensures forall d, k :: Post(d, k) in Handler(g, b, m) ==> !k.Top?
  {
    if m == Top(TOKENS) {
      TokenHandler(g, b);
    } else {
      ShortHandler(g, b, m);
      hide Handler;
      if m == Top(ACTIVE) {
        assert multiset([GoLive, Ack, Post(b, Other)])[Ack] == 1;
      }
    }
  }

  lemma OneAck(posts: seq<Op>)
    requires Ack !in posts
    ensures multiset([MakeTokens] + posts + [Keep(TopTok), Ack])[Ack] == 1
  {
    assert multiset(posts)[Ack] == 0;
  }

  lemma TakeAnswering(g: Graph, b: nat, p: nat, sent: bool, x: Block)
    requires Answering(p, sent, x) && x.todo == [] && x.mail != []
    ensures Answering(p, sent, x.(mail := x.mail[1..], todo := Handler(g, b, x.mail[0])))
  {
    HandlerAnswers(g, b, x.mail[0]);
    hide Handler;
    CountHead(x.mail, Top(p));
    assert multiset(x.todo)[Ack] == 0;
    assert x.mail[0] in x.mail;
    forall q | Top(q) in x.mail[1..] ensures q == p {
      assert Top(q) in x.mail;
    }
  }

  lemma OwingExecuted(g: Graph, s: Sys, b: nat, op: Op, y: Block, s': Sys)
    requires Barrier(g, s) && Executed(s, b, op, y, s')
    requires y.acked == s.blocks[b].acked + (if op == Ack then 1 else 0)
    ensures s'.main.Bcast? ==> s'.main.outstanding == |Owing(s')|
  {
    assert Answering(Phase(s.main), SentTo(s.main, b), s.blocks[b]);
    CountHead(s.blocks[b].todo, Ack);
    hide Answering;
    if op == Ack {
      assert s.blocks[b].acked == Phase(s.main);
      assert Owing(s') == Owing(s) - {b};
      assert b in Owing(s);
    } else {
      assert Owing(s') == Owing(s);
    }
  }

  lemma BarrierExecuted(g: Graph, s: Sys, b: nat, op: Op, y: Block, s': Sys)
    requires Barrier(g, s) && Executed(s, b, op, y, s') && Answering(Phase(s.main), SentTo(s.main, b), y)
    requires y.acked == s.blocks[b].acked + (if op == Ack then 1 else 0)
    ensures Barrier(g, s')
  {
    var x := s.blocks[b];
    assert Answering(Phase(s.main), SentTo(s.main, b), x);
    if op.Post? {
      assert Post(op.to, op.msg) in x.todo;
      assert !op.msg.Top?;
    }
    OwingExecuted(g, s, b, op, y, s');
    hide Answering;
    hide Owing;
    forall d: nat | d < g.n ensures Answering(Phase(s'.main), SentTo(s'.main, d), s'.blocks[d]) {
      assert Answering(Phase(s.main), SentTo(s.main, d), s.blocks[d]);
      if op.Post? && d == op.to {
        MailedAnswering(Phase(s.main), SentTo(s.main, d), Kept(s, b, y, d), op.msg);
      }
    }
  }

  lemma BarrierExec(g: Graph, s: Sys, b: nat, c: Choice)
    requires Barrier(g, s) && Enabled(g, s, Exec(b, c))
    ensures Barrier(g, Apply(g, s, Exec(b, c)))
  {
    ExecEffect(g, s, b, c);
    LocalAnswering(g, s, b, c);
    LocalTodo(g, s, b, c);
    hide *;
    BarrierExecuted(g, s, b, s.blocks[b].todo[0], Local(g, s, b, c), Apply(g, s, Exec(b, c)));
  }

  lemma BarrierNextPhase(g: Graph, s: Sys)
    requires Barrier(g, s) && Enabled(g, s, NextPhase)
    ensures Barrier(g, Apply(g, s, NextPhase))
  {
    var s' := Apply(g, s, NextPhase);
    forall b: nat | b < g.n
      ensures s.blocks[b].acked == Phase(s'.main) && Answering(Phase(s'.main), false, s.blocks[b])
    {
      PhaseOver(g, s, b);
      assert Answering(Phase(s.main), true, s.blocks[b]);
      assert forall q :: Top(q) !in s.blocks[b].mail;
    }
    OwingFull(s');
  }

  lemma BarrierTake(g: Graph, s: Sys, b: nat)
    requires Barrier(g, s) && Enabled(g, s, Take(b))
    ensures Barrier(g, Apply(g, s, Take(b)))
  {
    var s' := Apply(g, s, Take(b));
    assert Answering(Phase(s.main), SentTo(s.main, b), s.blocks[b]);
    TakeAnswering(g, b, Phase(s.main), SentTo(s.main, b), s.blocks[b]);
    hide Handler;
    hide Answering;
    forall d: nat | d < g.n ensures Answering(Phase(s'.main), SentTo(s'.main, d), s'.blocks[d]) {
      assert Answering(Phase(s.main), SentTo(s.main, d), s.blocks[d]);
    }
    assert Owing(s') == Owing(s);
  }

  lemma BarrierMailed(g: Graph, s: Sys, t: Step)
    requires Barrier(g, s) && Enabled(g, s, t) && (t.SendTop? || t.Sweep? || t.Noise? || t.Leave?)
    ensures Barrier(g, Apply(g, s, t))
  {
    var s' := Apply(g, s, t);
    forall d: nat | d < g.n ensures Answering(Phase(s'.main), SentTo(s'.main, d), s'.blocks[d]) {
      MailedAt(g, s, t, d);
    }
    hide Answering;
    assert Owing(s') == Owing(s);
  }

  lemma MailedAt(g: Graph, s: Sys, t: Step, d: nat)
    requires Barrier(g, s) && Enabled(g, s, t) && (t.SendTop? || t.Sweep? || t.Noise? || t.Leave?) && d < g.n
    ensures |Apply(g, s, t).blocks| == g.n
    ensures var s' := Apply(g, s, t); Answering(Phase(s'.main), SentTo(s'.main, d), s'.blocks[d])
  {
    assert Answering(Phase(s.main), SentTo(s.main, d), s.blocks[d]);
    hide Answering;
    if t.SendTop? {
      if d == s.main.next {
        ToppedAnswering(s.main.phase, s.blocks[d]);
      }
    } else if !t.Leave? && d == t.b {
      MailedAnswering(Phase(s.main), SentTo(s.main, d), s.blocks[d], if t.Sweep? then Inert else Other);
    }
  }

  lemma BarrierKeeps(g: Graph, s: Sys, t: Step)
    requires Barrier(g, s) && Enabled(g, s, t)
    ensures Barrier(g, Apply(g, s, t))
  {
    hide Barrier;
    hide Enabled;
    hide Apply;
    match t
    case Exec(b, c) => BarrierExec(g, s, b, c);
    case NextPhase => BarrierNextPhase(g, s);
    case Take(b) => BarrierTake(g, s, b);
    case _ => BarrierMailed(g, s, t);
  }

  lemma BarrierStarts(g: Graph, s: Sys)
    requires Initial(g, s)
    ensures Barrier(g, s)
  {
    OwingFull(s);
  }
}
