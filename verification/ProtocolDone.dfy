/** From the last broadcast of start() on: how the news that a block is done travels both
    ways through the tokens. */
module ProtocolDone {
  import opened BlockStates
  import opened Protocol
  import opened ProtocolBarrier
  import opened ProtocolStart

  // ---------------------------------------------------------------- the state of one block

  ghost predicate CalmMsg(m: Msg) {
    !m.TokenMsg? && (m.Top? ==> m.phase == ACTIVE)
  }

  ghost predicate CalmOp(g: Graph, op: Op) {
    op != MakeTokens && !op.Keep? && (op.Post? ==> op.to < g.n && !op.msg.Top? && !op.msg.TokenMsg? && !op.msg.Inert?)
  }

  /** No part of mark_done is under way. */
  ghost predicate Plain(todo: seq<Op>) {
    SetDone !in todo && ClearPool !in todo
  }

  /** mark_done, once begun, changes the state, then clears the pool, then posts every check. */
  ghost predicate Closing(g: Graph, b: nat, todo: seq<Op>, state: BlockState) {
    if todo == [] then true
    else match todo[0]
      case Post(_, _) => Closing(g, b, todo[1..], state)
      case SetDone => todo[1..] != [] && todo[1] == ClearPool && Closing(g, b, todo[1..], DONE)
      case ClearPool => state == DONE && (forall op :: op in CheckPosts(g, b) ==> op in todo[1..]) && Plain(todo[1..])
      case _ => Plain(todo[1..])
  }

  ghost predicate HasOutput(g: Graph, b: nat) {
    b < |g.outs| && g.outs[b] > 0
  }

  /** The pool holds every token the block needs until mark_done clears it, and only those. */
  ghost predicate Holding(g: Graph, b: nat, x: Block) {
    x.made && (if x.released then x.pool == {} else HoldsAll(g, b, x.pool))
  }

  ghost predicate Calm(g: Graph, x: Block) {
    (forall m :: m in x.mail ==> CalmMsg(m)) && (forall op :: op in x.todo ==> CalmOp(g, op))
  }

  /** A done block has cleared its pool or is about to, and mark_done is on its way once all
      outputs are done. */
  ghost predicate Ending(g: Graph, b: nat, x: Block) {
    && (x.state == DONE ==> x.released || ClearPool in x.todo)
    && (x.released ==> x.state == DONE || x.revived)
    && (x.revived ==> x.released)
    && (HasOutput(g, b) && AllOutputsDone(g, b, x.outputsDone) ==>
          x.released || MarkDone in x.todo || ClearPool in x.todo)
  }

  /** The activation is handled once. */
  ghost predicate Activating(g: Graph, b: nat, x: Block) {
    && (GoLive in x.todo ==> x.todo == Handler(g, b, Top(ACTIVE)))
    && (x.revived ==> GoLive !in x.todo && x.acked + multiset(x.todo)[Ack] == ACTIVE + 1)
  }

  ghost predicate Grown(g: Graph, b: nat, x: Block) {
    Holding(g, b, x) && Calm(g, x) && Closing(g, b, x.todo, x.state) && Ending(g, b, x) && Activating(g, b, x)
  }

  // ---------------------------------------------------------------- what blocks know of others

  /** Every block feeding input i of block b has let its tokens go. */
  ghost predicate FedOut(g: Graph, s: Sys, b: nat, i: nat) {
    forall u: nat :: Feeds(g, u, b, i) ==> u < |s.blocks| && s.blocks[u].released
  }

  /** Every block reading output o of block b has let its tokens go. */
  ghost predicate ReadOut(g: Graph, s: Sys, b: nat, o: nat) {
    forall d: nat :: Reads(g, d, b, o) ==> d < |s.blocks| && s.blocks[d].released
  }

  ghost predicate InputPending(s: Sys, b: nat, i: nat) {
    && b < |s.blocks|
    && (InputCheck(i) in s.blocks[b].mail || CheckIn(i) in s.blocks[b].todo
        || exists u: nat :: u < |s.blocks| && Post(b, InputCheck(i)) in s.blocks[u].todo)
  }

  ghost predicate OutputPending(s: Sys, b: nat, o: nat) {
    && b < |s.blocks|
    && (OutputCheck(o) in s.blocks[b].mail || CheckOut(o) in s.blocks[b].todo
        || exists d: nat :: d < |s.blocks| && Post(b, OutputCheck(o)) in s.blocks[d].todo)
  }

  /** Nobody believes a neighbour done that is not. */
  ghost predicate InsTrue(g: Graph, s: Sys) {
    forall b: nat, i {:trigger FedOut(g, s, b, i)} | b < |s.blocks| && i in s.blocks[b].inputsDone :: FedOut(g, s, b, i)
  }

  ghost predicate OutsTrue(g: Graph, s: Sys) {
    forall b: nat, o {:trigger ReadOut(g, s, b, o)} | b < |s.blocks| && o in s.blocks[b].outputsDone :: ReadOut(g, s, b, o)
  }

  /** Whoever does not know yet has a check coming. */
  ghost predicate InsTold(g: Graph, s: Sys) {
    forall b: nat, u, i {:trigger Feeds(g, u, b, i)} | b < |s.blocks| && Feeds(g, u, b, i) && FedOut(g, s, b, i)
      :: i in s.blocks[b].inputsDone || InputPending(s, b, i)
  }

  ghost predicate OutsTold(g: Graph, s: Sys) {
    forall b: nat, d, o {:trigger Reads(g, d, b, o)} | b < |s.blocks| && Reads(g, d, b, o) && ReadOut(g, s, b, o)
      :: o in s.blocks[b].outputsDone || OutputPending(s, b, o)
  }

  ghost predicate Running(g: Graph, s: Sys) {
    && Barrier(g, s) && (s.main.Bcast? ==> s.main.phase == ACTIVE)
    && (forall b :: 0 <= b < g.n ==> Grown(g, b, s.blocks[b]))
    && InsTrue(g, s) && OutsTrue(g, s) && InsTold(g, s) && OutsTold(g, s)
  }

  // ---------------------------------------------------------------- tokens tell the truth

  /** The owner's reference to a token is the only one exactly when every block that needed
      it has cleared its pool. */
  lemma UniqueMeans(g: Graph, s: Sys, t: Tok)
    requires WellFormed(g) && |s.blocks| == g.n
    requires forall b :: 0 <= b < g.n ==> Holding(g, b, s.blocks[b]) && Calm(g, s.blocks[b])
    ensures Unique(s, t) <==> forall u: nat :: u < g.n && Needs(g, u, t) ==> s.blocks[u].released
  {
    hide Needs;
    forall u: nat | u < g.n
      ensures TokenMsg(t) !in s.blocks[u].mail && Keep(t) !in s.blocks[u].todo
      ensures forall d :: Post(d, TokenMsg(t)) !in s.blocks[u].todo
      ensures t in s.blocks[u].pool <==> Needs(g, u, t) && !s.blocks[u].released
    {
      var x := s.blocks[u];
      assert Holding(g, u, x) && Calm(g, x);
      assert !CalmMsg(TokenMsg(t)) && !CalmOp(g, Keep(t));
      assert forall d :: !CalmOp(g, Post(d, TokenMsg(t)));
    }
  }

  lemma InputTokenMeans(g: Graph, s: Sys, b: nat, i: nat)
    requires WellFormed(g) && |s.blocks| == g.n
    requires forall b :: 0 <= b < g.n ==> Holding(g, b, s.blocks[b]) && Calm(g, s.blocks[b])
    ensures Unique(s, InTok(b, i)) <==> FedOut(g, s, b, i)
  {
    UniqueMeans(g, s, InTok(b, i));
    hide Unique;
    assert forall u: nat :: Needs(g, u, InTok(b, i)) <==> Feeds(g, u, b, i);
    assert forall u: nat :: Feeds(g, u, b, i) ==> u < g.n;
  }

  lemma OutputTokenMeans(g: Graph, s: Sys, b: nat, o: nat)
    requires WellFormed(g) && |s.blocks| == g.n
    requires forall b :: 0 <= b < g.n ==> Holding(g, b, s.blocks[b]) && Calm(g, s.blocks[b])
    ensures Unique(s, OutTok(b, o)) <==> ReadOut(g, s, b, o)
  {
    UniqueMeans(g, s, OutTok(b, o));
    hide Unique;
    assert forall u: nat :: Needs(g, u, OutTok(b, o)) <==> Reads(g, u, b, o);
    assert forall u: nat :: Reads(g, u, b, o) ==> u < g.n;
  }

  /** What executing its next operation makes of block b, with the neighbours' releases in
      place of token counts. */
  ghost function Effect(g: Graph, s: Sys, b: nat, more: seq<Op>): Block
    requires b < |s.blocks| && s.blocks[b].todo != []
  {
    var x := s.blocks[b];
    var y := x.(todo := more + x.todo[1..]);
    match x.todo[0]
    case Ack => y.(acked := x.acked + 1)
    case GoLive => y.(state := LIVE, revived := x.revived || x.state == DONE)
    case CheckIn(i) => y.(inputsDone := if FedOut(g, s, b, i) then x.inputsDone + {i} else x.inputsDone - {i})
    case CheckOut(o) => y.(outputsDone := if ReadOut(g, s, b, o) then x.outputsDone + {o} else x.outputsDone - {o})
    case SetDone => y.(state := DONE)
    case ClearPool => y.(pool := {}, released := true)
    case _ => y
  }

  lemma LocalEffect(g: Graph, s: Sys, b: nat, c: Choice)
    requires Running(g, s) && b < g.n && s.blocks[b].todo != [] && Allowed(g, s, b, c)
    ensures Local(g, s, b, c) == Effect(g, s, b, Extra(g, s, b, c))
  {
    var op := s.blocks[b].todo[0];
    LocalTodo(g, s, b, c);
    assert Grown(g, b, s.blocks[b]);
    assert CalmOp(g, op);
    if op.CheckIn? {
      InputTokenMeans(g, s, b, op.i);
    } else if op.CheckOut? {
      OutputTokenMeans(g, s, b, op.o);
    }
    hide Unique;
    hide Extra;
    hide FedOut;
    hide ReadOut;
    hide AllOutputsDone;
  }

  // ---------------------------------------------------------------- the order within mark_done

  lemma {:induction false} ClosingPosts(g: Graph, b: nat, posts: seq<Op>, todo: seq<Op>, state: BlockState)
    requires Closing(g, b, todo, state) && forall op :: op in posts ==> op.Post?
    ensures Closing(g, b, posts + todo, state)
  {
    if posts == [] {
      assert posts + todo == todo;
    } else {
      ClosingPosts(g, b, posts[1..], todo, state);
      assert (posts + todo)[1..] == posts[1..] + todo;
      assert (posts + todo)[0] == posts[0] && posts[0] in posts;
    }
  }

  lemma {:induction false} ClosingPlain(g: Graph, b: nat, todo: seq<Op>, state: BlockState)
    requires Plain(todo)
    ensures Closing(g, b, todo, state)
  {
    if todo != [] {
      assert todo[0] in todo;
      assert forall op :: op in todo[1..] ==> op in todo;
      ClosingPlain(g, b, todo[1..], state);
    }
  }

  /** The posts, then the steps of mark_done, in front of the rest. */
  lemma ClosingBegins(g: Graph, b: nat, data: seq<Op>, rest: seq<Op>, state: BlockState)
    requires Plain(rest) && forall op :: op in data ==> op.Post?
    ensures Closing(g, b, data + [SetDone, ClearPool] + CheckPosts(g, b) + rest, state)
  {
    var tail := CheckPosts(g, b) + rest;
    forall op | op in CheckPosts(g, b) ensures op.Post? {
      CheckPostsAre(g, b, op);
    }
    hide CheckPosts;
    assert Plain(tail);
    assert ([ClearPool] + tail)[1..] == tail;
    assert Closing(g, b, [ClearPool] + tail, DONE);
    assert ([SetDone, ClearPool] + tail)[1..] == [ClearPool] + tail;
    assert Closing(g, b, [SetDone, ClearPool] + tail, state);
    ClosingPosts(g, b, data, [SetDone, ClearPool] + tail, state);
    assert data + [SetDone, ClearPool] + CheckPosts(g, b) + rest == data + ([SetDone, ClearPool] + tail);
  }

  /** Popping a post or a step of mark_done. */
  lemma ClosingPops(g: Graph, b: nat, todo: seq<Op>, state: BlockState)
    requires todo != [] && Closing(g, b, todo, state)
    ensures todo[0].Post? ==> Closing(g, b, todo[1..], state)
    ensures todo[0] == SetDone ==> Closing(g, b, todo[1..], DONE) && todo[1..] != [] && todo[1] == ClearPool
    ensures todo[0] == ClearPool ==>
      forall st :: Closing(g, b, todo[1..], st) && state == DONE && forall op :: op in CheckPosts(g, b) ==> op in todo[1..]
    ensures !(todo[0].Post? || todo[0] == SetDone || todo[0] == ClearPool) ==> Plain(todo[1..])
  {
    if todo[0] == ClearPool {
      forall st ensures Closing(g, b, todo[1..], st) {
        ClosingPlain(g, b, todo[1..], st);
      }
    }
  }

  lemma ClosingBefore(g: Graph, b: nat, posts: seq<Op>, finish: bool, rest: seq<Op>, state: BlockState)
    requires Plain(rest) && forall op :: op in posts ==> op.Post?
    ensures Closing(g, b, posts + (if finish then [MarkDone] else []) + rest, state)
  {
    var last := if finish then [MarkDone] else [];
    assert Plain(last + rest);
    ClosingPlain(g, b, last + rest, state);
    ClosingPosts(g, b, posts, last + rest, state);
    assert posts + last + rest == posts + (last + rest);
  }

  lemma EffectTodo(g: Graph, s: Sys, b: nat, more: seq<Op>)
    requires b < |s.blocks| && s.blocks[b].todo != []
    ensures var x, y := s.blocks[b], Effect(g, s, b, more);
      && y.todo == more + x.todo[1..]
      && y.state == (if x.todo[0] == SetDone then DONE else if x.todo[0] == GoLive then LIVE else x.state)
  {
    hide FedOut;
    hide ReadOut;
  }

  /** What is put in front: nothing after a post or a step of mark_done, the steps of
      mark_done when it takes effect, and otherwise posts and perhaps a mark_done. */
  lemma ExtraShape(g: Graph, s: Sys, b: nat, c: Choice)
    requires b < |s.blocks| && s.blocks[b].todo != [] && Allowed(g, s, b, c)
    ensures var x, more := s.blocks[b], Extra(g, s, b, c);
      if x.todo[0].Post? || x.todo[0] == SetDone || x.todo[0] == ClearPool then more == []
      else if x.todo[0] == MarkDone && x.state != DONE then more == c.data + [SetDone, ClearPool] + CheckPosts(g, b)
      else if x.todo[0] == Work then more == c.data + (if c.finish then [MarkDone] else [])
      else more == [] || more == [MarkDone]
    ensures forall op :: op in c.data ==> op.Post?
  {
    hide Local;
    hide AllOutputsDone;
    hide CheckPosts;
  }

  lemma ClosingEffect(g: Graph, s: Sys, b: nat, c: Choice)
    requires b < |s.blocks| && s.blocks[b].todo != [] && Allowed(g, s, b, c)
    requires Closing(g, b, s.blocks[b].todo, s.blocks[b].state)
    ensures var y := Effect(g, s, b, Extra(g, s, b, c)); Closing(g, b, y.todo, y.state)
  {
    var x, more := s.blocks[b], Extra(g, s, b, c);
    var y, op, rest := Effect(g, s, b, more), x.todo[0], x.todo[1..];
    ClosingPops(g, b, x.todo, x.state);
    EffectTodo(g, s, b, more);
    ExtraShape(g, s, b, c);
    hide *;
    if op.Post? || op == SetDone || op == ClearPool {
      assert more + rest == rest;
    } else if op == MarkDone && x.state != DONE {
      ClosingBegins(g, b, c.data, rest, y.state);
    } else if op == Work {
      ClosingBefore(g, b, c.data, c.finish, rest, y.state);
    } else {
      ClosingBefore(g, b, [], more != [], rest, y.state);
      assert [] + more + rest == more + rest;
    }
  }

  // ---------------------------------------------------------------- one block executes

  lemma EndingStep(g: Graph, b: nat, x: Block, y: Block, more: seq<Op>)
    requires Ending(g, b, x) && x.todo != [] && y.todo == more + x.todo[1..]
    requires var op, rest := x.todo[0], x.todo[1..];
      && y.state == (if op == SetDone then DONE else if op == GoLive then LIVE else x.state)
      && y.released == (x.released || op == ClearPool)
      && y.revived == (x.revived || (op == GoLive && x.state == DONE))
      && (op == SetDone ==> rest != [] && rest[0] == ClearPool)
      && (op == ClearPool ==> x.state == DONE)
      && (op == GoLive ==> ClearPool !in x.todo)
      && (op == MarkDone && x.state != DONE ==> ClearPool in more)
      && (if op.CheckOut? then AllOutputsDone(g, b, y.outputsDone) ==> MarkDone in more else y.outputsDone == x.outputsDone)
    ensures Ending(g, b, y)
  {
    var op, rest := x.todo[0], x.todo[1..];
    assert forall o :: o in x.todo ==> o == op || o in rest;
    if op == SetDone {
      assert rest[0] in rest;
    }
    hide AllOutputsDone;
    hide HasOutput;
  }

  lemma EffectRevived(g: Graph, s: Sys, b: nat, more: seq<Op>)
    requires b < |s.blocks| && s.blocks[b].todo != []
    ensures var x := s.blocks[b];
      Effect(g, s, b, more).revived == (x.revived || (x.todo[0] == GoLive && x.state == DONE))
  {
    hide FedOut;
    hide ReadOut;
  }

  lemma MarkDoneClears(g: Graph, s: Sys, b: nat, c: Choice)
    requires b < |s.blocks| && s.blocks[b].todo != [] && Allowed(g, s, b, c)
    requires s.blocks[b].todo[0] == MarkDone && s.blocks[b].state != DONE
    ensures ClearPool in Extra(g, s, b, c)
  {
    ExtraShape(g, s, b, c);
    hide *;
    assert ClearPool in [SetDone, ClearPool];
  }

  lemma CheckOutMarks(g: Graph, s: Sys, b: nat, c: Choice)
    requires b < |s.blocks| && s.blocks[b].todo != [] && s.blocks[b].todo[0].CheckOut?
    ensures AllOutputsDone(g, b, Local(g, s, b, c).outputsDone) ==> MarkDone in Extra(g, s, b, c)
  {
    hide AllOutputsDone;
    hide Local;
  }

  lemma EndingEffect(g: Graph, s: Sys, b: nat, c: Choice)
    requires Running(g, s) && b < g.n && s.blocks[b].todo != [] && Allowed(g, s, b, c)
    ensures Ending(g, b, Effect(g, s, b, Extra(g, s, b, c)))
  {
    var x, more := s.blocks[b], Extra(g, s, b, c);
    assert Grown(g, b, x);
    assert x.todo[0] in x.todo;
    assert x.todo[0] == GoLive ==> x.todo == [GoLive, Ack, Post(b, Other)];
    ClosingPops(g, b, x.todo, x.state);
    EffectTodo(g, s, b, more);
    EffectLearns(g, s, b, more);
    EffectRevived(g, s, b, more);
    if x.todo[0] == MarkDone && x.state != DONE {
      MarkDoneClears(g, s, b, c);
    }
    if x.todo[0].CheckOut? {
      LocalEffect(g, s, b, c);
      CheckOutMarks(g, s, b, c);
    }
    hide Local;
    assert Learns(g, s, b, x.todo[0], Effect(g, s, b, more));
    hide Running;
    hide Effect;
    hide Extra;
    hide Allowed;
    hide FedOut;
    hide ReadOut;
    hide AllOutputsDone;
    hide HasOutput;
    hide Closing;
    hide Ending;
    EndingStep(g, b, x, Effect(g, s, b, more), more);
  }

  lemma ActivatingEffect(g: Graph, p: nat, sent: bool, b: nat, x: Block, y: Block, more: seq<Op>)
    requires Answering(p, sent, x) && p >= ACTIVE && (sent ==> p == ACTIVE)
    requires x.todo != [] && Activating(g, b, x) && y.todo == more + x.todo[1..]
    requires forall op :: op in more ==> Late(g, op)
    requires y.acked == x.acked + (if x.todo[0] == Ack then 1 else 0)
    requires y.revived ==> x.revived || x.todo[0] == GoLive
    ensures Activating(g, b, y)
  {
    var op, rest := x.todo[0], x.todo[1..];
    CountHead(x.todo, Ack);
    assert Ack !in more && GoLive !in more;
    hide Late;
    assert multiset(y.todo)[Ack] == multiset(more)[Ack] + multiset(rest)[Ack];
    assert forall o :: o in x.todo <==> o == op || o in rest;
    if GoLive in x.todo {
      assert x.todo == [GoLive, Ack, Post(b, Other)];
      assert rest == [Ack, Post(b, Other)];
      assert multiset(rest)[Ack] == 1;
    }
  }

  lemma CalmEffect(g: Graph, x: Block, y: Block, more: seq<Op>)
    requires Calm(g, x) && x.todo != [] && y.mail == x.mail && y.todo == more + x.todo[1..]
    requires forall op :: op in more ==> Late(g, op)
    ensures Calm(g, y)
  {
    forall op | op in y.todo ensures CalmOp(g, op) {
      if op in more {
        assert Late(g, op);
      } else {
        assert op in x.todo;
      }
    }
  }

  lemma GrownEffect(g: Graph, s: Sys, b: nat, c: Choice)
    requires Running(g, s) && b < g.n && s.blocks[b].todo != [] && Allowed(g, s, b, c)
    ensures Grown(g, b, Effect(g, s, b, Extra(g, s, b, c)))
  {
    var x, more := s.blocks[b], Extra(g, s, b, c);
    var y := Effect(g, s, b, more);
    assert Grown(g, b, x);
    assert Answering(Phase(s.main), SentTo(s.main, b), x);
    LocalTodo(g, s, b, c);
    ClosingEffect(g, s, b, c);
    EndingEffect(g, s, b, c);
    ActivatingEffect(g, Phase(s.main), SentTo(s.main, b), b, x, y, more);
    CalmEffect(g, x, y, more);
    assert CalmOp(g, x.todo[0]);
    hide Extra;
    hide Closing;
    hide Ending;
    hide Activating;
    hide Calm;
    hide FedOut;
    hide ReadOut;
    hide HoldsAll;
    hide Barrier;
    hide Late;
    assert Holding(g, b, y);
  }

  // ---------------------------------------------------------------- what the neighbours know, after a step

  /** The part of an operation's effect that neighbours can notice or that comes from them. */
  ghost predicate Learns(g: Graph, s: Sys, b: nat, op: Op, y: Block) {
    && b < |s.blocks| && s.blocks[b].todo != [] && op == s.blocks[b].todo[0]
    && var x := s.blocks[b];
    && (forall k :: k in x.todo ==> k == op || k in y.todo)
    && y.mail == x.mail && y.released == (x.released || op == ClearPool)
    && y.inputsDone == (if !op.CheckIn? then x.inputsDone
                        else if FedOut(g, s, b, op.i) then x.inputsDone + {op.i} else x.inputsDone - {op.i})
    && y.outputsDone == (if !op.CheckOut? then x.outputsDone
                         else if ReadOut(g, s, b, op.o) then x.outputsDone + {op.o} else x.outputsDone - {op.o})
  }

  lemma EffectLearns(g: Graph, s: Sys, b: nat, more: seq<Op>)
    requires b < |s.blocks| && s.blocks[b].todo != []
    ensures Learns(g, s, b, s.blocks[b].todo[0], Effect(g, s, b, more))
  {
    hide FedOut;
    hide ReadOut;
  }

  lemma InsTrueExecuted(g: Graph, s: Sys, b: nat, op: Op, y: Block, s': Sys)
    requires InsTrue(g, s) && Executed(s, b, op, y, s') && Learns(g, s, b, op, y)
    ensures InsTrue(g, s')
  {
    hide Feeds;
    hide ReadOut;
    forall d: nat, i | d < |s'.blocks| && i in s'.blocks[d].inputsDone ensures FedOut(g, s', d, i) {
      assert FedOut(g, s, d, i);
    }
  }

  lemma OutsTrueExecuted(g: Graph, s: Sys, b: nat, op: Op, y: Block, s': Sys)
    requires OutsTrue(g, s) && Executed(s, b, op, y, s') && Learns(g, s, b, op, y)
    ensures OutsTrue(g, s')
  {
    hide Reads;
    hide FedOut;
    forall d: nat, o | d < |s'.blocks| && o in s'.blocks[d].outputsDone ensures ReadOut(g, s', d, o) {
      assert ReadOut(g, s, d, o);
    }
  }

  lemma FeedsCheck(g: Graph, u: nat, d: nat, i: nat)
    requires Feeds(g, u, d, i)
    ensures Post(d, InputCheck(i)) in CheckPosts(g, u)
  {
    var e :| e in g.edges && e.src == u && e.dst == d && e.inp == i;
    CheckPostsAre(g, u, Post(d, InputCheck(i)));
  }

  lemma ReadsCheck(g: Graph, d: nat, u: nat, o: nat)
    requires Reads(g, d, u, o)
    ensures Post(u, OutputCheck(o)) in CheckPosts(g, d)
  {
    var e :| e in g.edges && e.src == u && e.out == o && e.dst == d;
    CheckPostsAre(g, d, Post(u, OutputCheck(o)));
  }

  lemma InsToldExecuted(g: Graph, s: Sys, b: nat, op: Op, y: Block, s': Sys)
    requires InsTold(g, s) && Executed(s, b, op, y, s') && Learns(g, s, b, op, y)
    requires Closing(g, b, s.blocks[b].todo, s.blocks[b].state)
    ensures InsTold(g, s')
  {
    forall d: nat, u, i | d < |s'.blocks| && Feeds(g, u, d, i) && FedOut(g, s', d, i)
      ensures i in s'.blocks[d].inputsDone || InputPending(s', d, i)
    {
      if FedOut(g, s, d, i) {
        PendingExecuted(g, s, b, op, y, s', d, i);
      } else {
        var v: nat :| Feeds(g, v, d, i) && !(v < |s.blocks| && s.blocks[v].released);
        assert v < |s'.blocks| && s'.blocks[v].released;
        assert v == b && op == ClearPool;
        FeedsCheck(g, b, d, i);
        assert Post(d, InputCheck(i)) in s'.blocks[b].todo;
      }
    }
  }

  lemma PendingExecuted(g: Graph, s: Sys, b: nat, op: Op, y: Block, s': Sys, d: nat, i: nat)
    requires Executed(s, b, op, y, s') && Learns(g, s, b, op, y) && d < |s.blocks|
    requires FedOut(g, s, d, i) && (i in s.blocks[d].inputsDone || InputPending(s, d, i))
    ensures i in s'.blocks[d].inputsDone || InputPending(s', d, i)
  {
    hide FedOut;
    hide ReadOut;
    if i !in s.blocks[d].inputsDone && InputCheck(i) !in s.blocks[d].mail && CheckIn(i) !in s.blocks[d].todo {
      var u: nat :| u < |s.blocks| && Post(d, InputCheck(i)) in s.blocks[u].todo;
      if u == b && op == Post(d, InputCheck(i)) {
        assert InputCheck(i) in s'.blocks[d].mail;
      } else {
        assert Post(d, InputCheck(i)) in s'.blocks[u].todo;
      }
    }
  }

  lemma OutsToldExecuted(g: Graph, s: Sys, b: nat, op: Op, y: Block, s': Sys)
    requires OutsTold(g, s) && Executed(s, b, op, y, s') && Learns(g, s, b, op, y)
    requires Closing(g, b, s.blocks[b].todo, s.blocks[b].state)
    ensures OutsTold(g, s')
  {
    forall u: nat, d, o | u < |s'.blocks| && Reads(g, d, u, o) && ReadOut(g, s', u, o)
      ensures o in s'.blocks[u].outputsDone || OutputPending(s', u, o)
    {
      if ReadOut(g, s, u, o) {
        ReadPendingExecuted(g, s, b, op, y, s', u, o);
      } else {
        var v: nat :| Reads(g, v, u, o) && !(v < |s.blocks| && s.blocks[v].released);
        assert v < |s'.blocks| && s'.blocks[v].released;
        assert v == b && op == ClearPool;
        ReadsCheck(g, b, u, o);
        assert Post(u, OutputCheck(o)) in s'.blocks[b].todo;
      }
    }
  }

  lemma ReadPendingExecuted(g: Graph, s: Sys, b: nat, op: Op, y: Block, s': Sys, u: nat, o: nat)
    requires Executed(s, b, op, y, s') && Learns(g, s, b, op, y) && u < |s.blocks|
    requires ReadOut(g, s, u, o) && (o in s.blocks[u].outputsDone || OutputPending(s, u, o))
    ensures o in s'.blocks[u].outputsDone || OutputPending(s', u, o)
  {
    hide FedOut;
    hide ReadOut;
    if o !in s.blocks[u].outputsDone && OutputCheck(o) !in s.blocks[u].mail && CheckOut(o) !in s.blocks[u].todo {
      var d: nat :| d < |s.blocks| && Post(u, OutputCheck(o)) in s.blocks[d].todo;
      if d == b && op == Post(u, OutputCheck(o)) {
        assert OutputCheck(o) in s'.blocks[u].mail;
      } else {
        assert Post(u, OutputCheck(o)) in s'.blocks[d].todo;
      }
    }
  }

  // ---------------------------------------------------------------- every step

  lemma RunningExecuted(g: Graph, s: Sys, b: nat, op: Op, y: Block, s': Sys)
    requires Running(g, s) && Barrier(g, s') && Executed(s, b, op, y, s') && Learns(g, s, b, op, y) && Grown(g, b, y)
    ensures Running(g, s')
  {
    var x := s.blocks[b];
    assert Grown(g, b, x);
    assert Closing(g, b, x.todo, x.state);
    InsTrueExecuted(g, s, b, op, y, s');
    OutsTrueExecuted(g, s, b, op, y, s');
    InsToldExecuted(g, s, b, op, y, s');
    OutsToldExecuted(g, s, b, op, y, s');
    assert op in x.todo && CalmOp(g, op);
    hide *;
    RunningBlocks(g, s, b, op, y, s');
  }

  lemma RunningBlocks(g: Graph, s: Sys, b: nat, op: Op, y: Block, s': Sys)
    requires Running(g, s) && Barrier(g, s') && Executed(s, b, op, y, s') && Grown(g, b, y)
    requires InsTrue(g, s') && OutsTrue(g, s') && InsTold(g, s') && OutsTold(g, s')
    requires op.Post? ==> CalmMsg(op.msg)
    ensures Running(g, s')
  {
    hide Grown;
    hide Barrier;
    hide InsTrue;
    hide OutsTrue;
    hide InsTold;
    hide OutsTold;
    assert |s.blocks| == g.n by {
      assert Barrier(g, s);
      BarrierShape(g, s);
      BarrierShape(g, s');
    }
    forall d: nat | d < g.n ensures Grown(g, d, s'.blocks[d]) {
      if op.Post? && d == op.to {
        GrownMailed(g, d, Kept(s, b, y, d), op.msg);
      }
    }
  }

  lemma GrownMailed(g: Graph, b: nat, x: Block, m: Msg)
    requires Grown(g, b, x) && CalmMsg(m)
    ensures Grown(g, b, Mailed(x, m))
  {
    hide Closing;
    hide HoldsAll;
    hide AllOutputsDone;
    hide Handler;
    hide CalmOp;
    hide CalmMsg;
  }

  lemma RunningExec(g: Graph, s: Sys, b: nat, c: Choice)
    requires Running(g, s) && Enabled(g, s, Exec(b, c))
    ensures Running(g, Apply(g, s, Exec(b, c)))
  {
    var s' := Apply(g, s, Exec(b, c));
    BarrierShape(g, s);
    BarrierKeeps(g, s, Exec(b, c));
    ExecEffect(g, s, b, c);
    hide *;
    LocalEffect(g, s, b, c);
    GrownEffect(g, s, b, c);
    var y := Effect(g, s, b, Extra(g, s, b, c));
    EffectLearns(g, s, b, Extra(g, s, b, c));
    RunningExecuted(g, s, b, s.blocks[b].todo[0], y, s');
  }

  lemma CalmHandler(g: Graph, b: nat, m: Msg)
    requires CalmMsg(m) && b < g.n
    ensures Plain(Handler(g, b, m)) && forall op :: op in Handler(g, b, m) ==> CalmOp(g, op)
    ensures GoLive in Handler(g, b, m) ==> m == Top(ACTIVE)
  {
  }

  lemma GrownTake(g: Graph, p: nat, sent: bool, b: nat, x: Block)
    requires Grown(g, b, x) && Answering(p, sent, x) && b < g.n && x.todo == [] && x.mail != []
    requires p >= ACTIVE && (sent ==> p == ACTIVE)
    ensures Grown(g, b, x.(mail := x.mail[1..], todo := Handler(g, b, x.mail[0])))
  {
    var m := x.mail[0];
    assert m in x.mail && CalmMsg(m);
    assert forall k :: k in x.mail[1..] ==> k in x.mail;
    HandlerAnswers(g, b, m);
    CalmHandler(g, b, m);
    CountHead(x.mail, Top(p));
    ClosingPlain(g, b, Handler(g, b, m), x.state);
    hide Handler;
    hide CalmOp;
    hide CalmMsg;
    hide Closing;
    hide HoldsAll;
    hide AllOutputsDone;
  }

  lemma InsToldTake(g: Graph, s: Sys, b: nat)
    requires InsTold(g, s) && Enabled(g, s, Take(b))
    ensures InsTold(g, Apply(g, s, Take(b)))
  {
    var s' := Apply(g, s, Take(b));
    var x, y := s.blocks[b], s'.blocks[b];
    assert forall k :: k in x.mail ==> k in y.mail || k == x.mail[0];
    assert forall i :: x.mail[0] == InputCheck(i) ==> y.todo[0] == CheckIn(i);
    hide Handler;
    forall d: nat, u, i | d < |s'.blocks| && Feeds(g, u, d, i) && FedOut(g, s', d, i)
      ensures i in s'.blocks[d].inputsDone || InputPending(s', d, i)
    {
      assert FedOut(g, s, d, i);
      hide FedOut;
      hide Feeds;
      if exists v: nat :: v < |s.blocks| && Post(d, InputCheck(i)) in s.blocks[v].todo {
        var v: nat :| v < |s.blocks| && Post(d, InputCheck(i)) in s.blocks[v].todo;
        assert Post(d, InputCheck(i)) in s'.blocks[v].todo;
      }
    }
  }

  lemma OutsToldTake(g: Graph, s: Sys, b: nat)
    requires OutsTold(g, s) && Enabled(g, s, Take(b))
    ensures OutsTold(g, Apply(g, s, Take(b)))
  {
    var s' := Apply(g, s, Take(b));
    var x, y := s.blocks[b], s'.blocks[b];
    assert forall k :: k in x.mail ==> k in y.mail || k == x.mail[0];
    assert forall o :: x.mail[0] == OutputCheck(o) ==> y.todo[0] == CheckOut(o);
    hide Handler;
    forall u: nat, d, o | u < |s'.blocks| && Reads(g, d, u, o) && ReadOut(g, s', u, o)
      ensures o in s'.blocks[u].outputsDone || OutputPending(s', u, o)
    {
      assert ReadOut(g, s, u, o);
      hide ReadOut;
      hide Reads;
      if exists v: nat :: v < |s.blocks| && Post(u, OutputCheck(o)) in s.blocks[v].todo {
        var v: nat :| v < |s.blocks| && Post(u, OutputCheck(o)) in s.blocks[v].todo;
        assert Post(u, OutputCheck(o)) in s'.blocks[v].todo;
      }
    }
  }

  /** Nothing but mailboxes and work in hand has changed. */
  ghost predicate SameNews(s: Sys, s': Sys) {
    && |s'.blocks| == |s.blocks|
    && forall d: nat :: d < |s.blocks| ==>
      && s'.blocks[d].released == s.blocks[d].released
      && s'.blocks[d].inputsDone == s.blocks[d].inputsDone && s'.blocks[d].outputsDone == s.blocks[d].outputsDone
  }

  lemma TrueSame(g: Graph, s: Sys, s': Sys)
    requires InsTrue(g, s) && OutsTrue(g, s) && SameNews(s, s')
    ensures InsTrue(g, s') && OutsTrue(g, s')
  {
    hide Feeds;
    hide Reads;
    forall d: nat, i | d < |s'.blocks| && i in s'.blocks[d].inputsDone ensures FedOut(g, s', d, i) {
      assert FedOut(g, s, d, i);
    }
    forall d: nat, o | d < |s'.blocks| && o in s'.blocks[d].outputsDone ensures ReadOut(g, s', d, o) {
      assert ReadOut(g, s, d, o);
    }
  }

  lemma RunningTake(g: Graph, s: Sys, b: nat)
    requires Running(g, s) && Enabled(g, s, Take(b))
    ensures Running(g, Apply(g, s, Take(b)))
  {
    var s' := Apply(g, s, Take(b));
    BarrierKeeps(g, s, Take(b));
    InsToldTake(g, s, b);
    OutsToldTake(g, s, b);
    TrueSame(g, s, s');
    GrownTake(g, Phase(s.main), SentTo(s.main, b), b, s.blocks[b]);
    hide Grown;
    hide Handler;
    hide InsTrue;
    hide OutsTrue;
    hide InsTold;
    hide OutsTold;
  }

  /** Blocks are as they were but for one more message each. */
  ghost predicate MoreMail(s: Sys, s': Sys) {
    && |s'.blocks| == |s.blocks|
    && forall d: nat :: d < |s.blocks| ==>
      s'.blocks[d] == s.blocks[d] || exists m :: CalmMsg(m) && s'.blocks[d] == Mailed(s.blocks[d], m)
  }

  lemma ToldMail(g: Graph, s: Sys, s': Sys)
    requires InsTold(g, s) && OutsTold(g, s) && MoreMail(s, s')
    ensures InsTold(g, s') && OutsTold(g, s')
  {
    hide CalmMsg;
    forall d: nat, u, i | d < |s'.blocks| && Feeds(g, u, d, i) && FedOut(g, s', d, i)
      ensures i in s'.blocks[d].inputsDone || InputPending(s', d, i)
    {
      assert FedOut(g, s, d, i);
      hide FedOut;
      hide Feeds;
      if exists v: nat :: v < |s.blocks| && Post(d, InputCheck(i)) in s.blocks[v].todo {
        var v: nat :| v < |s.blocks| && Post(d, InputCheck(i)) in s.blocks[v].todo;
        assert Post(d, InputCheck(i)) in s'.blocks[v].todo;
      }
    }
    forall u: nat, d, o | u < |s'.blocks| && Reads(g, d, u, o) && ReadOut(g, s', u, o)
      ensures o in s'.blocks[u].outputsDone || OutputPending(s', u, o)
    {
      assert ReadOut(g, s, u, o);
      hide ReadOut;
      hide Reads;
      if exists v: nat :: v < |s.blocks| && Post(u, OutputCheck(o)) in s.blocks[v].todo {
        var v: nat :| v < |s.blocks| && Post(u, OutputCheck(o)) in s.blocks[v].todo;
        assert Post(u, OutputCheck(o)) in s'.blocks[v].todo;
      }
    }
  }

  lemma RunningMail(g: Graph, s: Sys, s': Sys)
    requires Running(g, s) && Barrier(g, s') && MoreMail(s, s') && (s'.main.Bcast? ==> s'.main.phase == ACTIVE)
    ensures Running(g, s')
  {
    ToldMail(g, s, s');
    TrueSame(g, s, s');
    hide InsTrue;
    hide OutsTrue;
    hide InsTold;
    hide OutsTold;
    hide CalmMsg;
    forall d: nat | d < g.n ensures Grown(g, d, s'.blocks[d]) {
      assert Grown(g, d, s.blocks[d]);
      if s'.blocks[d] != s.blocks[d] {
        var m :| CalmMsg(m) && s'.blocks[d] == Mailed(s.blocks[d], m);
        hide Grown;
        GrownMailed(g, d, s.blocks[d], m);
      }
    }
  }

  lemma RunningOther(g: Graph, s: Sys, t: Step)
    requires Running(g, s) && Enabled(g, s, t) && !t.Exec? && !t.Take?
    ensures Running(g, Apply(g, s, t))
  {
    var s' := Apply(g, s, t);
    BarrierKeeps(g, s, t);
    assert CalmMsg(Inert) && CalmMsg(Other) && CalmMsg(Top(ACTIVE));
    hide Grown;
    hide InsTrue;
    hide OutsTrue;
    hide InsTold;
    hide OutsTold;
    hide CalmMsg;
    assert MoreMail(s, s');
    assert s'.main.Bcast? ==> s'.main.phase == ACTIVE;
    hide *;
    RunningMail(g, s, s');
  }

  lemma RunningKeeps(g: Graph, s: Sys, t: Step)
    requires Running(g, s) && Enabled(g, s, t)
    ensures Running(g, Apply(g, s, t))
  {
    hide *;
    match t {
      case Exec(b, c) => RunningExec(g, s, b, c);
      case Take(b) => RunningTake(g, s, b);
      case _ => RunningOther(g, s, t);
    }
  }

  /** The last broadcast of start() begins. */
  lemma BlockStarts(g: Graph, s: Sys, b: nat)
    requires Starting(g, s) && Enabled(g, s, NextPhase) && s.main.phase == ALLOC && b < g.n
    ensures Grown(g, b, s.blocks[b]) && Blank(s.blocks[b])
  {
    TokensDelivered(g, s, b);
    var x := s.blocks[b];
    ClosingPlain(g, b, x.todo, x.state);
    assert 0 !in x.outputsDone;
    hide HoldsAll;
    hide Closing;
  }

  /** Blank blocks know nothing and have let nothing go. */
  lemma BlankKnows(g: Graph, s: Sys)
    requires WellFormed(g) && |s.blocks| == g.n && forall b: nat :: b < g.n ==> Blank(s.blocks[b])
    ensures InsTrue(g, s) && OutsTrue(g, s) && InsTold(g, s) && OutsTold(g, s)
  {
    forall b: nat, u: nat, i: nat | b < g.n && Feeds(g, u, b, i) ensures !FedOut(g, s, b, i) {
      assert u < g.n && Blank(s.blocks[u]);
    }
    forall b: nat, d: nat, o: nat | b < g.n && Reads(g, d, b, o) ensures !ReadOut(g, s, b, o) {
      assert d < g.n && Blank(s.blocks[d]);
    }
  }

  lemma RunningStarts(g: Graph, s: Sys)
    requires Starting(g, s) && Enabled(g, s, NextPhase) && s.main.phase == ALLOC
    ensures Running(g, Apply(g, s, NextPhase))
  {
    BarrierKeeps(g, s, NextPhase);
    var s' := Apply(g, s, NextPhase);
    BarrierShape(g, s');
    forall b: nat | b < g.n ensures Grown(g, b, s'.blocks[b]) && Blank(s'.blocks[b]) {
      BlockStarts(g, s, b);
    }
    hide Grown;
    hide Blank;
    hide Barrier;
    hide Starting;
    hide InsTrue;
    hide OutsTrue;
    hide InsTold;
    hide OutsTold;
    BlankKnows(g, s');
  }
}
